/**
 The service functions themselves, over the two tracker objects.
 */
module TrackerService {
  import opened Codes
  import opened Sessions
  import C = Continuation
  import F = FreeInstall
  import FS = FreeInstallService
  import opened Trackers

  class Drivers {
    const dschedContinuation: C.DSchedContinuation
    const dmsCallbackTask: FS.DmsCallbackTask

    ghost predicate Valid()
      reads dschedContinuation
    {
      dschedContinuation.Valid()
    }

    ghost function Here(): Service
      reads dschedContinuation, dmsCallbackTask
    {
      Service(dschedContinuation.Here(), dmsCallbackTask.Here())
    }

    constructor ()
      ensures Valid() && Here() == START && fresh(dschedContinuation) && fresh(dmsCallbackTask)
    {
      dschedContinuation := new C.DSchedContinuation();
      dmsCallbackTask := new FS.DmsCallbackTask();
    }

    method NotifyContinuationCallbackResult(missionId: int, resultCode: int)
      requires Valid()
      modifies dschedContinuation
      ensures Valid() && Here() == old(Here()).(cont := C.Notified(old(Here()).cont, missionId, resultCode))
    {
      if missionId in dschedContinuation.callbackMap {
        dschedContinuation.NotifyMissionCenterResult(missionId, resultCode);
      } else {
        dschedContinuation.RemoveTimeOut(missionId);
      }
    }

    method ContinueAbilityWithTimeout(dstDeviceId: DeviceId, missionId: int, callback: Remote)
      returns (inProgress: bool)
      requires Valid()
      modifies dschedContinuation
      ensures Valid() && Here() == Next(old(Here()), Continue(missionId, callback, dstDeviceId))
      ensures inProgress <==> missionId in old(dschedContinuation.callbackMap) || callback.Null?
    {
      var isPushSucceed := dschedContinuation.PushCallback(missionId, callback, dstDeviceId, false);
      if !isPushSucceed {
        return true;
      }
      dschedContinuation.SetTimeOut(missionId);
      return false;
    }

    /** Up to the question to the bundle manager, and after its refusal. */
    method AskForInstall(missionId: int, dstDeviceId: DeviceId, callback: Remote)
      requires Valid()
      modifies dschedContinuation
      ensures Valid() && Here() == Next(old(Here()), ContinueByInstall(missionId, callback, dstDeviceId))
    {
      var _ := dschedContinuation.PushCallback(missionId, callback, dstDeviceId, true);
      dschedContinuation.SetTimeOut(missionId);
    }

    method CannotAskForInstall(missionId: int)
      requires Valid()
      modifies dschedContinuation
      ensures Valid() && Here() == Next(old(Here()), InstallImpossible(missionId))
    {
      dschedContinuation.RemoveTimeOut(missionId);
      ghost var wasThere := missionId in dschedContinuation.callbackMap;
      var callback;
      ghost var push;
      callback, push := dschedContinuation.PopCallback(missionId);
      if wasThere {
        dschedContinuation.popped := dschedContinuation.popped - {push};
      }
    }

    method OnQueryInstallationFinished(resultCode: int, missionId: int)
      requires Valid()
      modifies dschedContinuation
      ensures Valid() && Here() == Next(old(Here()), InstallQueried(missionId, resultCode))
    {
      if resultCode != ERR_OK {
        NotifyContinuationCallbackResult(missionId, CONTINUE_REMOTE_UNINSTALLED_CANNOT_FREEINSTALL);
        return;
      }
      dschedContinuation.RemoveTimeOut(missionId);
      dschedContinuation.SetTimeOut(missionId);
    }

    method StartContinuation(missionId: int, want: Want)
      requires Valid()
      modifies dschedContinuation, dmsCallbackTask
      ensures Valid() && Here() == Next(old(Here()), Step.StartContinuation(missionId, want))
    {
      if want.status != ERR_OK {
        NotifyContinuationCallbackResult(missionId, want.status);
        return;
      }
      if !want.flagged {
        return;
      }
      if missionId !in dschedContinuation.callbackMap {
        dschedContinuation.SetTimeOut(missionId);
      }
      if !want.prepared {
        return;
      }
      var flag := missionId in dschedContinuation.freeInstall && dschedContinuation.freeInstall[missionId];
      dschedContinuation.SetCleanMissionFlag(missionId, want.clean);
      if flag && want.reachable {
        var _ := RegisterInstall(Null, want.device, F.FREEINSTALL_CONTINUE, missionId, want.sendOk);
      }
    }

    method NotifyContinuationResultFromRemote(sessionId: int, isSuccess: bool) returns (code: int)
      requires Valid()
      modifies dschedContinuation
      ensures Valid() && Here() == Next(old(Here()), Completed(sessionId, isSuccess))
      ensures code == if sessionId <= 0 then INVALID_REMOTE_PARAMETERS_ERR else ERR_OK
    {
      if sessionId <= 0 {
        return INVALID_REMOTE_PARAMETERS_ERR;
      }
      NotifyContinuationCallbackResult(sessionId, if isSuccess then 0 else NOTIFYCOMPLETECONTINUATION_FAILED);
      return ERR_OK;
    }

    /** A continuation event fires: the handler consumes it and drops ids that are not positive. */
    method ProcessContinuationEvent(sessionId: int)
      requires Valid() && sessionId in dschedContinuation.pending
      modifies dschedContinuation
      ensures Valid() && Here() == Next(old(Here()), MissionTimeout(sessionId))
    {
      dschedContinuation.pending := dschedContinuation.pending - multiset{sessionId};
      if sessionId <= 0 {
        return;
      }
      NotifyContinuationCallbackResult(sessionId, CONTINUE_ABILITY_TIMEOUT_ERR);
    }

    /** The part of `StartRemoteFreeInstall` before the remote request. */
    method RegisterInstall(callback: Remote, deviceId: DeviceId, launchType: F.LaunchType, session: int, sendOk: bool)
      returns (done: bool)
      requires Valid()
      modifies dmsCallbackTask
      ensures Valid() && dschedContinuation.Here() == old(dschedContinuation.Here())
      ensures dmsCallbackTask.Here() ==
        F.Begun(old(dmsCallbackTask.Here()), callback, deviceId, launchType, session, sendOk)
    {
      var taskId := dmsCallbackTask.GenerateTaskId();
      done := dmsCallbackTask.PushCallback(taskId, callback, deviceId, launchType, session, sendOk);
      if !done {
        return;
      }
      if launchType.FREEINSTALL_CONTINUE? {
        dmsCallbackTask.SetContinuationMissionMap(taskId, session);
      }
    }

    /** The part of `StartRemoteFreeInstall` after a remote request that failed. */
    method RemoteInstallFailed(taskId: int, result: int)
      requires Valid()
      modifies dmsCallbackTask
      ensures Valid() && Here() == Next(old(Here()), InstallRefused(taskId, result))
    {
      var item := dmsCallbackTask.PopCallback(taskId);
      dmsCallbackTask.NotifyFreeInstallResult(item, result);
    }

    method NotifyCompleteFreeInstallFromRemote(taskId: int, resultCode: int)
      requires Valid()
      modifies dschedContinuation, dmsCallbackTask
      ensures Valid() && Here() == Next(old(Here()), InstallCompleted(taskId, resultCode))
    {
      var launchType := F.FREEINSTALL_START;
      if taskId > 0 && taskId in dmsCallbackTask.callbackMap {
        launchType := dmsCallbackTask.callbackMap[taskId].launchType;
      }
      var item := dmsCallbackTask.PopCallback(taskId);
      if launchType.FREEINSTALL_START? {
        dmsCallbackTask.NotifyFreeInstallResult(item, resultCode);
        return;
      }
      if resultCode == ERR_OK {
        dmsCallbackTask.PopContinuationMissionMap(taskId);
        return;
      }
      var missionId := INVALID_PARAMETERS_ERR;
      if taskId > 0 && taskId in dmsCallbackTask.continuationMissionMap {
        missionId := dmsCallbackTask.continuationMissionMap[taskId];
      }
      NotifyContinuationCallbackResult(missionId, CONTINUE_FREE_INSTALL_FAILED);
      dmsCallbackTask.PopContinuationMissionMap(taskId);
    }

    /** A free-install event fires. */
    method ProcessTaskEvent(taskId: int, timeoutCode: int)
      requires Valid() && taskId in dmsCallbackTask.pending
      modifies dschedContinuation, dmsCallbackTask
      ensures Valid() && Here() == Next(old(Here()), TaskTimeout(taskId, timeoutCode))
    {
      dmsCallbackTask.pending := dmsCallbackTask.pending - multiset{taskId};
      if taskId <= 0 {
        return;
      }
      NotifyCompleteFreeInstallFromRemote(taskId, timeoutCode);
    }

    method ProcessFreeInstallOffline(deviceId: DeviceId)
      requires Valid() && F.TasksOk(dmsCallbackTask.Here())
      modifies dmsCallbackTask
      ensures Valid() && Here() == Next(old(Here()), DeviceOffline(deviceId))
    {
      forall id | id in dmsCallbackTask.callbackMap
        ensures dmsCallbackTask.callbackMap[id].taskId == id
      {
        assert F.ItemOk(dmsCallbackTask.Here(), id);
      }
      dmsCallbackTask.NotifyDeviceOffline(deviceId);
    }
  }
}
