/**
 The continuation tracker: per mission a callback to answer, a target device and a
 free-install flag, and the timeouts that are pending.

 `history` lists every successful push and `answers` every result sent to a mission centre;
 a push is known by its place in `history`. `popped` holds pushes that were taken out of the
 table and not answered yet. The code keeps none of the three.
 */
module Continuation {
  import opened Sessions

  datatype PushRecord = PushRecord(mission: int, callback: Remote, device: DeviceId, isFreeInstall: bool)

  datatype Push = Push(place: nat, callback: Remote)

  datatype Answer = Answer(place: nat, callback: Remote, code: int)

  datatype Cont = Cont(
    callbacks: map<int, Push>, devices: map<int, DeviceId>, freeInstall: map<int, bool>, cleanMission: map<int, bool>,
    timers: multiset<int>, history: seq<PushRecord>, popped: set<Push>, answers: seq<Answer>)

  const START: Cont := Cont(map[], map[], map[], map[], multiset{}, [], {}, [])

  // ------------------------------------------------------------ single sections

  predicate PushAllowed(s: Cont, m: int, callback: Remote) {
    !callback.Null? && m !in s.callbacks
  }

  /** A push. The device entry is placed only where there is none. */
  function Pushed(s: Cont, m: int, callback: Remote, device: DeviceId, isFreeInstall: bool): Cont {
    if !PushAllowed(s, m, callback) then s
    else
      s.(callbacks := s.callbacks[m := Push(|s.history|, callback)],
         devices := if m in s.devices then s.devices else s.devices[m := device],
         freeInstall := if isFreeInstall then s.freeInstall[m := true] else s.freeInstall,
         history := s.history + [PushRecord(m, callback, device, isFreeInstall)])
  }

  function Popped(s: Cont, m: int): Cont {
    if m !in s.callbacks then s
    else
      s.(callbacks := s.callbacks - {m}, devices := s.devices - {m}, freeInstall := s.freeInstall - {m},
         cleanMission := s.cleanMission - {m}, popped := s.popped + {s.callbacks[m]})
  }

  function TimerSet(s: Cont, m: int): Cont {
    s.(timers := s.timers + multiset{m})
  }

  function TimersRemoved(s: Cont, m: int): Cont {
    s.(timers := s.timers[m := 0])
  }

  function TimerConsumed(s: Cont, m: int): Cont {
    s.(timers := s.timers - multiset{m})
  }

  /** The flag is placed only where there is none. */
  function CleanFlagSet(s: Cont, m: int, clean: bool): Cont {
    if m in s.cleanMission then s else s.(cleanMission := s.cleanMission[m := clean])
  }

  function Sent(s: Cont, p: Push, code: int): Cont {
    s.(popped := s.popped - {p}, answers := s.answers + [Answer(p.place, p.callback, code)])
  }

  function Discarded(s: Cont, p: Push): Cont {
    s.(popped := s.popped - {p})
  }

  /** The mission-centre result as one step: the callback in the table, if there is one, is
      taken out and answered, and no timeout of the mission stays. */
  function Notified(s: Cont, m: int, code: int): Cont {
    if m in s.callbacks then Sent(TimersRemoved(Popped(s, m), m), s.callbacks[m], code) else TimersRemoved(s, m)
  }

  function TargetDevice(s: Cont, m: int): DeviceId {
    if m in s.devices then s.devices[m] else ""
  }

  predicate IsFreeInstall(s: Cont, m: int) {
    m in s.freeInstall && s.freeInstall[m]
  }

  predicate IsCleanMission(s: Cont, m: int) {
    m in s.cleanMission ==> s.cleanMission[m]
  }

  // -------------------------------------------- runs of sections in any order

  datatype Section =
    | PushIt(mission: int, callback: Remote, device: DeviceId, isFreeInstall: bool)
    | PopIt(mission: int)
    | SendIt(push: Push, code: int)
    | DiscardIt(push: Push)
    | SetTimer(mission: int)
    | RemoveTimers(mission: int)
    | ConsumeTimer(mission: int)
    | SetCleanFlag(mission: int, clean: bool)

  predicate Possible(s: Cont, section: Section) {
    match section
    case SendIt(p, _) => p in s.popped
    case DiscardIt(p) => p in s.popped
    case ConsumeTimer(m) => m in s.timers
    case _ => true
  }

  function Apply(s: Cont, section: Section): Cont {
    match section
    case PushIt(m, cb, d, f) => Pushed(s, m, cb, d, f)
    case PopIt(m) => Popped(s, m)
    case SendIt(p, code) => Sent(s, p, code)
    case DiscardIt(p) => Discarded(s, p)
    case SetTimer(m) => TimerSet(s, m)
    case RemoveTimers(m) => TimersRemoved(s, m)
    case ConsumeTimer(m) => TimerConsumed(s, m)
    case SetCleanFlag(m, clean) => CleanFlagSet(s, m, clean)
  }

  ghost predicate Runs(s: Cont, sections: seq<Section>, s': Cont)
    decreases |sections|
  {
    if sections == [] then s == s'
    else Possible(s, sections[0]) && Runs(Apply(s, sections[0]), sections[1..], s')
  }

  predicate Genuine(s: Cont, place: nat, callback: Remote) {
    place < |s.history| && s.history[place].callback == callback
  }

  /** Every push in the table, taken out or answered is one of the recorded pushes. */
  ghost predicate AllGenuine(s: Cont) {
    && (forall m :: m in s.callbacks ==> Genuine(s, s.callbacks[m].place, s.callbacks[m].callback))
    && (forall p :: p in s.popped ==> Genuine(s, p.place, p.callback))
    && (forall i :: 0 <= i < |s.answers| ==> Genuine(s, s.answers[i].place, s.answers[i].callback))
  }

  /** A push is in the table, taken out, or answered: only one of the three, and once. */
  ghost predicate AllApart(callbacks: map<int, Push>, popped: set<Push>, answers: seq<Answer>) {
    && (forall m, m' :: m in callbacks && m' in callbacks && m != m' ==> callbacks[m].place != callbacks[m'].place)
    && (forall m, p :: m in callbacks && p in popped ==> callbacks[m].place != p.place)
    && (forall m, i :: m in callbacks && 0 <= i < |answers| ==> callbacks[m].place != answers[i].place)
    && (forall p, i :: p in popped && 0 <= i < |answers| ==> p.place != answers[i].place)
    && (forall i, j :: 0 <= i < j < |answers| ==> answers[i].place != answers[j].place)
  }

  ghost predicate OnceEach(s: Cont) {
    AllGenuine(s) && AllApart(s.callbacks, s.popped, s.answers)
  }

  /** The tables move together: the device and the free-install flag of a mission in progress
      are those of its current push, and no other mission has any. */
  ghost predicate TablesTogether(s: Cont) {
    && s.devices.Keys == s.callbacks.Keys && s.freeInstall.Keys <= s.callbacks.Keys
    && forall m :: m in s.callbacks ==>
      && s.callbacks[m].place < |s.history|
      && s.history[s.callbacks[m].place] ==
        PushRecord(m, s.callbacks[m].callback, TargetDevice(s, m), IsFreeInstall(s, m))
  }

  lemma PushStaysApart(s: Cont, m: int, p: Push)
    requires OnceEach(s) && m !in s.callbacks && p.place == |s.history|
    ensures AllApart(s.callbacks[m := p], s.popped, s.answers)
  {
    assert forall m' :: m' in s.callbacks ==> Genuine(s, s.callbacks[m'].place, s.callbacks[m'].callback);
  }

  lemma PopStaysApart(callbacks: map<int, Push>, popped: set<Push>, answers: seq<Answer>, m: int)
    requires AllApart(callbacks, popped, answers) && m in callbacks
    ensures AllApart(callbacks - {m}, popped + {callbacks[m]}, answers)
  {
  }

  lemma SendStaysApart(callbacks: map<int, Push>, popped: set<Push>, answers: seq<Answer>, p: Push, code: int)
    requires AllApart(callbacks, popped, answers) && p in popped
    requires forall q :: q in popped && q.place == p.place ==> q == p
    ensures AllApart(callbacks, popped - {p}, answers + [Answer(p.place, p.callback, code)])
  {
  }

  lemma PushKeeps(s: Cont, m: int, callback: Remote, device: DeviceId, isFreeInstall: bool)
    requires OnceEach(s)
    ensures OnceEach(Pushed(s, m, callback, device, isFreeInstall))
  {
    if PushAllowed(s, m, callback) {
      PushStaysApart(s, m, Push(|s.history|, callback));
    }
  }

  lemma PushKeepsTables(s: Cont, m: int, callback: Remote, device: DeviceId, isFreeInstall: bool)
    requires TablesTogether(s)
    ensures TablesTogether(Pushed(s, m, callback, device, isFreeInstall))
  {
  }

  lemma PopKeeps(s: Cont, m: int)
    requires OnceEach(s)
    ensures OnceEach(Popped(s, m))
  {
    if m in s.callbacks {
      PopStaysApart(s.callbacks, s.popped, s.answers, m);
    }
  }

  lemma PopKeepsTables(s: Cont, m: int)
    requires TablesTogether(s)
    ensures TablesTogether(Popped(s, m))
  {
  }

  lemma SendKeeps(s: Cont, p: Push, code: int)
    requires OnceEach(s) && p in s.popped
    ensures OnceEach(Sent(s, p, code))
  {
    forall q | q in s.popped && q.place == p.place
      ensures q == p
    {
      SamePlaceSamePush(s, p, q);
    }
    SendStaysApart(s.callbacks, s.popped, s.answers, p, code);
  }

  lemma SamePlaceSamePush(s: Cont, p: Push, q: Push)
    requires OnceEach(s) && p in s.popped && q in s.popped && p.place == q.place
    ensures p == q
  {
    assert Genuine(s, p.place, p.callback) && Genuine(s, q.place, q.callback);
  }

  lemma DiscardKeeps(s: Cont, p: Push)
    requires OnceEach(s) && TablesTogether(s)
    ensures OnceEach(Discarded(s, p)) && TablesTogether(Discarded(s, p))
  {
  }

  /** Other timers and other clean flags change nothing but what is pending. */
  lemma AsideKeeps(s: Cont, timers: multiset<int>, cleanMission: map<int, bool>)
    requires OnceEach(s) && TablesTogether(s)
    ensures var s' := s.(timers := timers, cleanMission := cleanMission); OnceEach(s') && TablesTogether(s')
  {
  }

  lemma SectionKeeps(s: Cont, section: Section)
    requires OnceEach(s) && TablesTogether(s) && Possible(s, section)
    ensures OnceEach(Apply(s, section)) && TablesTogether(Apply(s, section))
  {
    match section
    case PushIt(m, cb, d, f) =>
      PushKeeps(s, m, cb, d, f);
      PushKeepsTables(s, m, cb, d, f);
    case PopIt(m) =>
      PopKeeps(s, m);
      PopKeepsTables(s, m);
    case SendIt(p, code) => SendKeeps(s, p, code);
    case _ =>
  }

  lemma {:induction false} RunKeeps(s: Cont, sections: seq<Section>, s': Cont)
    requires OnceEach(s) && TablesTogether(s) && Runs(s, sections, s')
    ensures OnceEach(s') && TablesTogether(s')
    decreases |sections|
  {
    if sections != [] {
      SectionKeeps(s, sections[0]);
      RunKeeps(Apply(s, sections[0]), sections[1..], s');
    }
  }

  /** Under every interleaving of sections: each push is answered at most once, every answer
      goes to the callback that was pushed, and a push still in the table has no answer. */
  lemma AnsweredAtMostOnce(sections: seq<Section>, s: Cont)
    requires Runs(START, sections, s)
    ensures forall i, j :: 0 <= i < j < |s.answers| ==> s.answers[i].place != s.answers[j].place
    ensures forall i :: 0 <= i < |s.answers| ==>
      s.answers[i].place < |s.history| && s.history[s.answers[i].place].callback == s.answers[i].callback
    ensures forall m, i :: m in s.callbacks && 0 <= i < |s.answers| ==> s.answers[i].place != s.callbacks[m].place
  {
    RunKeeps(START, sections, s);
  }

  /** Under every interleaving of sections, the look-ups report what the current push of the
      mission supplied, and the defaults when there is none. */
  lemma LookupsReportCurrentPush(sections: seq<Section>, s: Cont, m: int)
    requires Runs(START, sections, s)
    ensures m !in s.callbacks ==> TargetDevice(s, m) == "" && !IsFreeInstall(s, m)
    ensures m in s.callbacks ==>
      && s.callbacks[m].place < |s.history|
      && s.history[s.callbacks[m].place] ==
        PushRecord(m, s.callbacks[m].callback, TargetDevice(s, m), IsFreeInstall(s, m))
  {
    RunKeeps(START, sections, s);
  }

  // -------------------------------------------------------------- the code paths

  class DSchedContinuation {
    var callbackMap: map<int, Remote>
    var continuationDevices: map<int, DeviceId>
    var freeInstall: map<int, bool>
    var cleanMission: map<int, bool>
    var pending: multiset<int>
    ghost var live: map<int, Push>
    ghost var history: seq<PushRecord>
    ghost var popped: set<Push>
    ghost var answers: seq<Answer>

    ghost predicate Valid()
      reads this
    {
      live.Keys == callbackMap.Keys && forall m :: m in live ==>
        live[m].callback == callbackMap[m] && !callbackMap[m].Null?
    }

    ghost function Here(): Cont
      reads this
    {
      Cont(live, continuationDevices, freeInstall, cleanMission, pending, history, popped, answers)
    }

    constructor ()
      ensures Valid() && Here() == START
    {
      callbackMap, continuationDevices, freeInstall, cleanMission, pending := map[], map[], map[], map[], multiset{};
      live, history, popped, answers := map[], [], {}, [];
    }

    method SetTimeOut(missionId: int)
      requires Valid()
      modifies this`pending
      ensures Valid() && Here() == TimerSet(old(Here()), missionId)
    {
      pending := pending + multiset{missionId};
    }

    method RemoveTimeOut(missionId: int)
      requires Valid()
      modifies this`pending
      ensures Valid() && Here() == TimersRemoved(old(Here()), missionId)
    {
      pending := pending[missionId := 0];
    }

    method PushCallback(missionId: int, callback: Remote, deviceId: DeviceId, isFreeInstall: bool) returns (done: bool)
      requires Valid()
      modifies this
      ensures Valid() && Here() == Pushed(old(Here()), missionId, callback, deviceId, isFreeInstall)
      ensures done == PushAllowed(old(Here()), missionId, callback)
    {
      if callback.Null? || missionId in callbackMap {
        return false;
      }
      callbackMap := callbackMap[missionId := callback];
      live := live[missionId := Push(|history|, callback)];
      history := history + [PushRecord(missionId, callback, deviceId, isFreeInstall)];
      if missionId !in continuationDevices {
        continuationDevices := continuationDevices[missionId := deviceId];
      }
      if isFreeInstall {
        freeInstall := freeInstall[missionId := isFreeInstall];
      }
      return true;
    }

    method PopCallback(missionId: int) returns (callback: Remote, ghost push: Push)
      requires Valid()
      modifies this
      ensures Valid() && Here() == Popped(old(Here()), missionId)
      ensures callback == if missionId in old(callbackMap) then old(callbackMap)[missionId] else Null
      ensures missionId in old(callbackMap) ==> push == old(live)[missionId]
    {
      push := Push(0, Null);
      if missionId !in callbackMap {
        return Null, push;
      }
      callback := callbackMap[missionId];
      push := live[missionId];
      assert missionId !in continuationDevices ==> continuationDevices - {missionId} == continuationDevices;
      assert missionId !in freeInstall ==> freeInstall - {missionId} == freeInstall;
      if missionId in continuationDevices {
        continuationDevices := continuationDevices - {missionId};
      }
      if missionId in freeInstall {
        freeInstall := freeInstall - {missionId};
      }
      cleanMission := cleanMission - {missionId};
      callbackMap := callbackMap - {missionId};
      live := live - {missionId};
      popped := popped + {push};
    }

    method SetCleanMissionFlag(missionId: int, isCleanMission: bool)
      requires Valid()
      modifies this`cleanMission
      ensures Valid() && Here() == CleanFlagSet(old(Here()), missionId, isCleanMission)
    {
      if missionId !in cleanMission {
        cleanMission := cleanMission[missionId := isCleanMission];
      }
    }

    /** Pops, removes the timeouts and sends the result to what was popped. */
    method NotifyMissionCenterResult(missionId: int, resultCode: int)
      requires Valid()
      modifies this
      ensures Valid() && Here() == Notified(old(Here()), missionId, resultCode)
    {
      var callback;
      ghost var push;
      callback, push := PopCallback(missionId);
      RemoveTimeOut(missionId);
      if callback.Null? {
        return;
      }
      popped := popped - {push};
      answers := answers + [Answer(push.place, callback, resultCode)];
    }
  }
}
