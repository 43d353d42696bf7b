/**
 The free-install tracker: a table of tasks that wait for the remote device, each with one
 pending timer.

 `pushes` counts the tasks entered so far and `place` numbers them; `replies` is what was
 sent to callbacks. The code keeps none of the three.
 */
module FreeInstall {
  import opened Codes
  import opened Collections
  import opened Sessions

  const INT64_MAX: int := 0x7fff_ffff_ffff_ffff

  datatype LaunchType = FREEINSTALL_START | FREEINSTALL_CONTINUE

  datatype TaskItem = TaskItem(
    callback: Remote, taskId: int, launchType: LaunchType, deviceId: DeviceId, sessionId: int, place: nat)

  /** What a look-up of an unknown task returns. */
  const NO_ITEM: TaskItem := TaskItem(Null, -1, FREEINSTALL_START, "", -1, 0)

  datatype Reply = Reply(place: nat, callback: Remote, code: int)

  datatype Tasks = Tasks(
    callbacks: map<int, TaskItem>, missions: map<int, int>, next: int, timers: multiset<int>, pushes: nat,
    replies: multiset<Reply>)

  const START: Tasks := Tasks(map[], map[], 1, multiset{}, 0, multiset{})

  function NextId(id: int): int {
    if id == INT64_MAX then 1 else id + 1
  }

  /** The ids run from 1 to the largest 64-bit number and start again. */
  lemma IdsCycle(id: int)
    requires 1 <= id <= 9223372036854775807
    ensures NextId(id) == id % 9223372036854775807 + 1
  {
  }

  predicate PushAllowed(s: Tasks, id: int, callback: Remote, launchType: LaunchType, sendOk: bool) {
    id > 0 && (launchType.FREEINSTALL_START? ==> !callback.Null?) && id !in s.callbacks && sendOk
  }

  function Pushed(
    s: Tasks, id: int, callback: Remote, device: DeviceId, launchType: LaunchType, session: int, sendOk: bool): Tasks
  {
    if !PushAllowed(s, id, callback, launchType, sendOk) then s
    else
      s.(callbacks := s.callbacks[id := TaskItem(callback, id, launchType, device, session, s.pushes)],
         timers := s.timers + multiset{id}, pushes := s.pushes + 1)
  }

  function Item(s: Tasks, id: int): TaskItem {
    if id in s.callbacks then s.callbacks[id] else NO_ITEM
  }

  function Popped(s: Tasks, id: int): Tasks {
    if id in s.callbacks then s.(callbacks := s.callbacks - {id}, timers := s.timers[id := 0]) else s
  }

  /** A result goes out only to a callback that is there. */
  function Replied(s: Tasks, item: TaskItem, code: int): Tasks {
    if item.callback.Null? then s
    else s.(replies := s.replies + multiset{Reply(item.place, item.callback, code)})
  }

  function MissionRecorded(s: Tasks, id: int, mission: int): Tasks {
    if id <= 0 || mission <= 0 || id in s.missions then s else s.(missions := s.missions[id := mission])
  }

  /** The first mission that is recorded for a task stays; neither id may be zero or less. */
  lemma MissionRecordedContents(s: Tasks, id: int, mission: int, x: int)
    ensures var missions := MissionRecorded(s, id, mission).missions;
      && (x in s.missions ==> x in missions && missions[x] == s.missions[x])
      && (x !in s.missions ==> (x in missions <==> x == id && id > 0 && mission > 0))
      && (x !in s.missions && x in missions ==> missions[x] == mission)
  {
  }

  function MissionForgotten(s: Tasks, id: int): Tasks {
    s.(missions := s.missions - {id})
  }

  /** The mission of a task; for an unknown task the error code itself comes back. */
  function MissionOf(s: Tasks, id: int): int {
    if id > 0 && id in s.missions then s.missions[id] else INVALID_PARAMETERS_ERR
  }

  /** A look-up of the launch type falls back to the plain start. */
  function LaunchTypeOf(s: Tasks, id: int): LaunchType {
    if id > 0 && id in s.callbacks then s.callbacks[id].launchType else FREEINSTALL_START
  }

  /** A fresh id, its task, and for a continuation the mission behind it. */
  function Begun(
    s: Tasks, callback: Remote, device: DeviceId, launchType: LaunchType, session: int, sendOk: bool): Tasks
  {
    var issued := s.(next := NextId(s.next));
    var pushed := Pushed(issued, s.next, callback, device, launchType, session, sendOk);
    if PushAllowed(issued, s.next, callback, launchType, sendOk) && launchType.FREEINSTALL_CONTINUE?
    then MissionRecorded(pushed, s.next, session) else pushed
  }

  function TasksOn(s: Tasks, device: DeviceId): set<int> {
    set id | id in s.callbacks && s.callbacks[id].deviceId == device
  }

  function RepliesFor(callbacks: map<int, TaskItem>, ids: set<int>, code: int): set<Reply> {
    set id | id in ids && id in callbacks && !callbacks[id].callback.Null?
      :: Reply(callbacks[id].place, callbacks[id].callback, code)
  }

  ghost function WithoutTimers(timers: multiset<int>, ids: set<int>): (r: multiset<int>)
    ensures forall id :: r[id] == if id in ids then 0 else timers[id]
    decreases ids
  {
    if ids == {} then timers
    else
      var id := OneOf(ids);
      WithoutTimers(timers, ids - {id})[id := 0]
  }

  /** The offline sweep: every task on the device goes, with its timer and one reply. */
  ghost function OfflineSwept(s: Tasks, device: DeviceId): Tasks {
    WithoutTasks(s, TasksOn(s, device))
  }

  ghost function WithoutTasks(s: Tasks, ids: set<int>): Tasks {
    s.(callbacks := s.callbacks - ids, timers := WithoutTimers(s.timers, ids),
       replies := s.replies + multiset(RepliesFor(s.callbacks, ids, DEVICE_OFFLINE_ERR)))
  }

  // --------------------------------------------------------------- the invariant

  ghost predicate ItemOk(s: Tasks, id: int) {
    id in s.callbacks ==>
      var item := s.callbacks[id];
      && id > 0 && item.taskId == id && item.place < s.pushes
      && (item.launchType.FREEINSTALL_START? ==> !item.callback.Null?)
  }

  ghost predicate PlacesApart(callbacks: map<int, TaskItem>) {
    forall i, j :: i in callbacks && j in callbacks && i != j ==> callbacks[i].place != callbacks[j].place
  }

  /** The live tasks are exactly those with a pending timer, which is pending once. */
  ghost predicate TimersMatch(s: Tasks) {
    forall id :: s.timers[id] == if id in s.callbacks then 1 else 0
  }

  /** No task was answered twice, and no live task was answered. */
  ghost predicate RepliesOnce(s: Tasks) {
    && (forall r :: s.replies[r] <= 1)
    && (forall r :: r in s.replies ==> r.place < s.pushes)
    && (forall r, r' :: r in s.replies && r' in s.replies && r != r' ==> r.place != r'.place)
    && (forall r, id :: r in s.replies && id in s.callbacks ==> s.callbacks[id].place != r.place)
  }

  /** Items carry their keys, and no task is answered twice. */
  ghost predicate Placed(s: Tasks) {
    (forall id :: ItemOk(s, id)) && PlacesApart(s.callbacks) && RepliesOnce(s)
  }

  ghost predicate TasksOk(s: Tasks) {
    Placed(s) && TimersMatch(s) && 1 <= s.next <= INT64_MAX
  }

  lemma PushPlaced(
    s: Tasks, id: int, callback: Remote, device: DeviceId, launchType: LaunchType, session: int, sendOk: bool)
    requires Placed(s)
    ensures Placed(Pushed(s, id, callback, device, launchType, session, sendOk))
  {
    if PushAllowed(s, id, callback, launchType, sendOk) {
      var s' := Pushed(s, id, callback, device, launchType, session, sendOk);
      forall x
        ensures ItemOk(s', x)
      {
        assert ItemOk(s, x);
      }
      forall x | x in s.callbacks
        ensures s.callbacks[x].place < s.pushes
      {
        assert ItemOk(s, x);
      }
    }
  }

  lemma PushKeeps(
    s: Tasks, id: int, callback: Remote, device: DeviceId, launchType: LaunchType, session: int, sendOk: bool)
    requires TasksOk(s)
    ensures TasksOk(Pushed(s, id, callback, device, launchType, session, sendOk))
  {
    PushPlaced(s, id, callback, device, launchType, session, sendOk);
  }

  lemma PopPlaced(s: Tasks, id: int)
    requires Placed(s)
    ensures Placed(Popped(s, id))
  {
    forall x
      ensures ItemOk(Popped(s, id), x)
    {
      assert ItemOk(s, x);
    }
  }

  /** Taking a task out and answering it. */
  lemma AnswerKeeps(s: Tasks, id: int, code: int)
    requires TasksOk(s) && id in s.callbacks
    ensures TasksOk(Replied(Popped(s, id), s.callbacks[id], code)) && TasksOk(Popped(s, id))
  {
    PopPlaced(s, id);
    var s1 := Popped(s, id);
    var s2 := Replied(s1, s.callbacks[id], code);
    forall x
      ensures ItemOk(s2, x)
    {
      assert ItemOk(s1, x);
    }
    assert ItemOk(s, id);
  }

  /** Each reply of the sweep is the only one for its task, and its task is gone. */
  lemma SweptReply(s: Tasks, device: DeviceId, r: Reply) returns (id: int)
    requires Placed(s) && r in RepliesFor(s.callbacks, TasksOn(s, device), DEVICE_OFFLINE_ERR)
    ensures id in TasksOn(s, device) && s.callbacks[id].place == r.place < s.pushes
    ensures forall r' :: r' in s.replies ==> r'.place != r.place
    ensures forall x :: x in s.callbacks && s.callbacks[x].place == r.place ==> x == id
  {
    id :| id in TasksOn(s, device) && !s.callbacks[id].callback.Null?
      && r == Reply(s.callbacks[id].place, s.callbacks[id].callback, DEVICE_OFFLINE_ERR);
    assert ItemOk(s, id);
  }

  lemma SweptReplies(s: Tasks, device: DeviceId)
    requires Placed(s)
    ensures RepliesOnce(OfflineSwept(s, device))
  {
    var ids := TasksOn(s, device);
    var added := RepliesFor(s.callbacks, ids, DEVICE_OFFLINE_ERR);
    forall r | r in added
      ensures r !in s.replies && r.place < s.pushes
      ensures forall r' :: r' in s.replies ==> r'.place != r.place
      ensures forall id :: id in s.callbacks && id !in ids ==> s.callbacks[id].place != r.place
      ensures forall r' :: r' in added && r' != r ==> r'.place != r.place
    {
      var id := SweptReply(s, device, r);
    }
  }

  lemma OfflinePlaced(s: Tasks, device: DeviceId)
    requires Placed(s)
    ensures Placed(OfflineSwept(s, device))
  {
    SweptReplies(s, device);
    forall x
      ensures ItemOk(OfflineSwept(s, device), x)
    {
      assert ItemOk(s, x);
    }
  }

  lemma OfflineKeeps(s: Tasks, device: DeviceId)
    requires TasksOk(s)
    ensures TasksOk(OfflineSwept(s, device))
  {
    OfflinePlaced(s, device);
  }

  /** `todo` is left to visit; of the visited tasks those on the device are gone. */
  ghost predicate PartlySwept(s: Tasks, device: DeviceId, todo: set<int>, gone: set<int>) {
    todo <= s.callbacks.Keys && gone == TasksOn(s, device) - todo
  }

  lemma VisitStep(s: Tasks, device: DeviceId, todo: set<int>, gone: set<int>, id: int)
    requires PartlySwept(s, device, todo, gone) && id in todo
    ensures id in s.callbacks && id !in gone
    ensures PartlySwept(s, device, todo - {id}, if s.callbacks[id].deviceId == device then gone + {id} else gone)
  {
  }

  lemma DropStep(s: Tasks, gone: set<int>, id: int)
    requires PlacesApart(s.callbacks) && id in s.callbacks && id !in gone
    ensures WithoutTasks(s, gone + {id}) ==
      Replied(Popped(WithoutTasks(s, gone), id), s.callbacks[id], DEVICE_OFFLINE_ERR)
  {
    var fewer, dropped := WithoutTasks(s, gone), WithoutTasks(s, gone + {id});
    assert dropped.callbacks == fewer.callbacks - {id};
    TimersShrink(s.timers, gone, id);
    assert dropped.timers == fewer.timers[id := 0];
    RepliesGrow(s.callbacks, gone, id);
    RepliesAdd(s.replies, multiset(RepliesFor(s.callbacks, gone, DEVICE_OFFLINE_ERR)), s.callbacks[id]);
  }

  lemma RepliesAdd(sent: multiset<Reply>, before: multiset<Reply>, item: TaskItem)
    ensures var r := Reply(item.place, item.callback, DEVICE_OFFLINE_ERR);
      (sent + before) + (if item.callback.Null? then multiset{} else multiset{r}) ==
      sent + (before + if item.callback.Null? then multiset{} else multiset{r})
  {
  }

  lemma TimersShrink(timers: multiset<int>, ids: set<int>, id: int)
    ensures WithoutTimers(timers, ids + {id}) == WithoutTimers(timers, ids)[id := 0]
  {
    forall x
      ensures WithoutTimers(timers, ids + {id})[x] == WithoutTimers(timers, ids)[id := 0][x]
    {
    }
  }

  lemma RepliesGrow(callbacks: map<int, TaskItem>, ids: set<int>, id: int)
    requires PlacesApart(callbacks) && id in callbacks && id !in ids
    ensures multiset(RepliesFor(callbacks, ids + {id}, DEVICE_OFFLINE_ERR)) ==
      multiset(RepliesFor(callbacks, ids, DEVICE_OFFLINE_ERR)) +
      if callbacks[id].callback.Null? then multiset{}
      else multiset{Reply(callbacks[id].place, callbacks[id].callback, DEVICE_OFFLINE_ERR)}
  {
    var r := Reply(callbacks[id].place, callbacks[id].callback, DEVICE_OFFLINE_ERR);
    var before, after :=
      RepliesFor(callbacks, ids, DEVICE_OFFLINE_ERR), RepliesFor(callbacks, ids + {id}, DEVICE_OFFLINE_ERR);
    assert r !in before;
    assert after == before + if callbacks[id].callback.Null? then {} else {r};
  }
}

module FreeInstallService {
  import opened Codes
  import opened Collections
  import opened Sessions
  import opened FreeInstall

  class DmsCallbackTask {
    var callbackMap: map<int, TaskItem>
    var continuationMissionMap: map<int, int>
    var currTaskId: int
    var pending: multiset<int>
    var pushes: nat
    var sent: multiset<Reply>

    ghost function Here(): Tasks
      reads this
    {
      Tasks(callbackMap, continuationMissionMap, currTaskId, pending, pushes, sent)
    }

    constructor ()
      ensures Here() == START
    {
      callbackMap, continuationMissionMap, currTaskId, pending, pushes, sent :=
        map[], map[], 1, multiset{}, 0, multiset{};
    }

    method SetContinuationMissionMap(taskId: int, missionId: int)
      modifies this`continuationMissionMap
      ensures Here() == MissionRecorded(old(Here()), taskId, missionId)
    {
      if taskId <= 0 || missionId <= 0 || taskId in continuationMissionMap {
        return;
      }
      continuationMissionMap := continuationMissionMap[taskId := missionId];
    }

    method PopContinuationMissionMap(taskId: int)
      modifies this`continuationMissionMap
      ensures Here() == MissionForgotten(old(Here()), taskId)
    {
      continuationMissionMap := continuationMissionMap - {taskId};
    }

    method NotifyFreeInstallResult(item: TaskItem, resultCode: int)
      modifies this`sent
      ensures Here() == Replied(old(Here()), item, resultCode)
    {
      if item.callback.Null? {
        return;
      }
      sent := sent + multiset{Reply(item.place, item.callback, resultCode)};
    }

    method GenerateTaskId() returns (currValue: int)
      modifies this`currTaskId
      ensures currValue == old(currTaskId) && currTaskId == NextId(currValue)
    {
      currValue := currTaskId;
      currTaskId := currTaskId + 1;
      if currValue == INT64_MAX {
        currTaskId := 1;
      }
    }

    method PushCallback(
      taskId: int, callback: Remote, deviceId: DeviceId, launchType: LaunchType, session: int, sendOk: bool)
      returns (done: bool)
      modifies this`callbackMap, this`pending, this`pushes
      ensures Here() == Pushed(old(Here()), taskId, callback, deviceId, launchType, session, sendOk)
      ensures done == PushAllowed(old(Here()), taskId, callback, launchType, sendOk)
    {
      if taskId <= 0 {
        return false;
      }
      if launchType.FREEINSTALL_START? && callback.Null? {
        return false;
      }
      if taskId in callbackMap || !sendOk {
        return false;
      }
      pending := pending + multiset{taskId};
      callbackMap := callbackMap[taskId := TaskItem(callback, taskId, launchType, deviceId, session, pushes)];
      pushes := pushes + 1;
      return true;
    }

    method PopCallback(taskId: int) returns (item: TaskItem)
      modifies this`callbackMap, this`pending
      ensures Here() == Popped(old(Here()), taskId) && item == Item(old(Here()), taskId)
    {
      item := NO_ITEM;
      if taskId !in callbackMap {
        return;
      }
      item := callbackMap[taskId];
      callbackMap := callbackMap - {taskId};
      pending := pending[taskId := 0];
    }

    /** One turn of the walk: a task on the device loses its timer and is answered. */
    method DropTask(id: int)
      requires id in callbackMap && callbackMap[id].taskId == id
      modifies this`callbackMap, this`pending, this`sent
      ensures Here() == Replied(Popped(old(Here()), id), old(callbackMap)[id], DEVICE_OFFLINE_ERR)
    {
      var item := callbackMap[id];
      pending := pending[item.taskId := 0];
      NotifyFreeInstallResult(item, DEVICE_OFFLINE_ERR);
      callbackMap := callbackMap - {id};
    }

    /** The walk over the table when a device goes offline, in any order. */
    method NotifyDeviceOffline(deviceId: DeviceId)
      requires PlacesApart(callbackMap) && forall id :: id in callbackMap ==> callbackMap[id].taskId == id
      modifies this`callbackMap, this`pending, this`sent
      ensures Here() == OfflineSwept(old(Here()), deviceId)
    {
      ghost var s := Here();
      ghost var gone: set<int> := {};
      var todo := callbackMap.Keys;
      while todo != {}
        invariant PartlySwept(s, deviceId, todo, gone)
        invariant Here() == WithoutTasks(s, gone)
        decreases todo
      {
        HasMember(todo);
        var id :| id in todo;
        VisitStep(s, deviceId, todo, gone, id);
        todo := todo - {id};
        if callbackMap[id].deviceId == deviceId {
          DropStep(s, gone, id);
          DropTask(id);
          gone := gone + {id};
        }
      }
      assert gone == TasksOn(s, deviceId);
    }
  }
}
