/**
 * The renderer's preload script: the capture and heartbeat intervals started and torn
 * down with monitoring, the activity/inactivity tracker driven by input events, the
 * screen stream and recorder, the recorded-chunk buffer, and the requests it posts.
 * Interval handles come from one counter (0 stands for `undefined`); the armed handles
 * are kept per kind, and `clearInterval(h)` disarms `h` whatever it runs.
 */
module Renderer {

  import opened Wrappers
  import FileNames

  type Chunk = seq<bv8>

  datatype Profile = Profile(id: string, token: string)

  datatype InputEvent = KeyRelease | MouseClick

  datatype TimerKind = ScreenshotInterval | VideoInterval | ActivityInterval | HeartbeatInterval

  /**
   * A request posted to the service, one constructor per endpoint (`timer/inactive/stop`,
   * `timer/inactive/start`, `heartbeat`, `upload/img`, `upload/video`). Only the first
   * three carry the bearer token.
   */
  datatype Request =
    | InactiveStop(token: string, slotId: nat)
    | InactiveStart(token: string, tsId: Option<string>)
    | Heartbeat(token: string)
    | UploadImage(fileName: string, userId: string, tsId: Option<string>)
    | UploadVideo(fileName: string, clip: seq<Chunk>, userId: string, tsId: Option<string>)

  /** What `sendHeartbeat` posts: nothing when there is no profile to read the token from. */
  function HeartbeatPosts(p: Option<Profile>): seq<Request>
  {
    if p.Some? then [Heartbeat(p.value.token)] else []
  }

  /** What resuming activity posts: the end of the open inactivity slot, if one is recorded. */
  function ResumePosts(p: Option<Profile>, slot: nat): seq<Request>
  {
    if slot != 0 && p.Some? then [InactiveStop(p.value.token, slot)] else []
  }

  class Tracker {
    var profile: Option<Profile>
    var tsId: Option<string>
    /** `ia_slot_id`; 0 stands for a falsy id (never set, or none returned). */
    var iaSlotId: nat
    var screenshotTimer: nat
    var videoTimer: nat
    var activityTimer: nat
    var heartbeatTimer: nat
    /** Armed interval handles, by what they run. */
    var screenshots: set<nat>
    var videos: set<nat>
    var activities: set<nat>
    var heartbeats: set<nat>
    var nextHandle: nat
    var userActive: bool
    var userStatus: bool
    var recordedChunks: seq<Chunk>
    /** Registered input listeners, in registration order (each calls `trackActivity`). */
    var listeners: seq<InputEvent>
    /** The stream in `video.srcObject` (0 for none); streams are numbered as acquired. */
    var stream: nat
    var stoppedStreams: set<nat>
    var nextStream: nat
    /** The stream the current `mediaRecorder` records (0 for none). */
    var recorder: nat
    var requests: seq<Request>
    /** Values sent on the `setMonitoring` IPC channel to the main process. */
    var ipcSent: seq<bool>

    function TimersOf(k: TimerKind): set<nat>
      reads this`screenshots, this`videos, this`activities, this`heartbeats
    {
      match k
      case ScreenshotInterval => screenshots
      case VideoInterval => videos
      case ActivityInterval => activities
      case HeartbeatInterval => heartbeats
    }

    /** Every armed handle. */
    function Armed(): set<nat>
      reads this`screenshots, this`videos, this`activities, this`heartbeats
    {
      screenshots + videos + activities + heartbeats
    }

    /** Streams acquired and not yet stopped. */
    function LiveStreams(): set<nat>
      reads this`nextStream, this`stoppedStreams
    {
      set s | 1 <= s < nextStream && s !in stoppedStreams
    }

    ghost predicate Valid()
      reads this
    {
      TimersValid() && StreamsValid()
    }

    ghost predicate TimersValid()
      reads this`screenshots, this`videos, this`activities, this`heartbeats, this`nextHandle,
            this`screenshotTimer, this`videoTimer, this`activityTimer, this`heartbeatTimer,
            this`userActive
    {
      && 1 <= nextHandle
      && screenshotTimer < nextHandle && videoTimer < nextHandle
      && activityTimer < nextHandle && heartbeatTimer < nextHandle
      && (forall h :: h in heartbeats ==> 1 <= h < nextHandle)
      && 0 !in screenshots && 0 !in videos && 0 !in activities
      // handles are never reused, so the variables name distinct intervals
      && (screenshotTimer != 0 ==>
            screenshotTimer != videoTimer && screenshotTimer != activityTimer
            && screenshotTimer !in heartbeats)
      && (videoTimer != 0 ==> videoTimer != activityTimer && videoTimer !in heartbeats)
      && (activityTimer != 0 ==> activityTimer !in heartbeats)
      // at most one screenshot and one video interval
      && screenshots <= {screenshotTimer}
      && videos <= {videoTimer}
      // the activity interval is armed exactly while the user counts as active
      && activities == (if userActive then {activityTimer} else {})
    }

    /** At most one screen stream is live, and it is the one in the video element. */
    ghost predicate StreamsValid()
      reads this`stream, this`nextStream, this`stoppedStreams, this`recorder
    {
      && 1 <= nextStream && stream < nextStream
      && (forall s :: s in stoppedStreams ==> s < nextStream)
      && LiveStreams() == (if stream == 0 then {} else {stream})
      && recorder < nextStream
    }

    constructor ()
      ensures Valid()
      ensures profile == None && tsId == None && iaSlotId == 0
      ensures Armed() == {} && !userActive && !userStatus
      ensures recordedChunks == [] && listeners == [] && stream == 0 && recorder == 0
      ensures requests == [] && ipcSent == []
    {
      profile, tsId, iaSlotId := None, None, 0;
      screenshotTimer, videoTimer, activityTimer, heartbeatTimer := 0, 0, 0, 0;
      screenshots, videos, activities, heartbeats, nextHandle := {}, {}, {}, {}, 1;
      userActive, userStatus := false, false;
      recordedChunks, listeners := [], [];
      stream, stoppedStreams, nextStream, recorder := 0, {}, 1, 0;
      requests, ipcSent := [], [];
      new;
      assert LiveStreams() == {};
    }

    /** `setLoginState`: the profile later requests read their id and token from. */
    method SetLoginState(data: Option<Profile>)
      modifies this`profile
      ensures profile == data
    {
      profile := data;
    }

    /** `setTimesheet`. */
    method SetTimesheet(tsId: string)
      modifies this`tsId
      ensures this.tsId == Some(tsId)
    {
      this.tsId := Some(tsId);
    }

    /** `setInterval`: arms a fresh handle running `k`. */
    method SetInterval(k: TimerKind) returns (h: nat)
      requires 1 <= nextHandle
      requires forall h :: h in screenshots || h in videos || h in activities || h in heartbeats ==>
                 h < nextHandle
      modifies this`screenshots, this`videos, this`activities, this`heartbeats, this`nextHandle
      ensures h == old(nextHandle) && h !in old(Armed()) && 1 <= h
      ensures nextHandle == h + 1
      ensures screenshots == old(screenshots) + (if k == ScreenshotInterval then {h} else {})
      ensures videos == old(videos) + (if k == VideoInterval then {h} else {})
      ensures activities == old(activities) + (if k == ActivityInterval then {h} else {})
      ensures heartbeats == old(heartbeats) + (if k == HeartbeatInterval then {h} else {})
    {
      h := nextHandle;
      nextHandle := nextHandle + 1;
      match k
      case ScreenshotInterval => screenshots := screenshots + {h};
      case VideoInterval => videos := videos + {h};
      case ActivityInterval => activities := activities + {h};
      case HeartbeatInterval => heartbeats := heartbeats + {h};
    }

    /** `clearInterval(h)`; a handle that is not armed (or `undefined`) is ignored. */
    method ClearInterval(h: nat)
      modifies this`screenshots, this`videos, this`activities, this`heartbeats
      ensures screenshots == old(screenshots) - {h} && videos == old(videos) - {h}
      ensures activities == old(activities) - {h} && heartbeats == old(heartbeats) - {h}
    {
      screenshots, videos, activities, heartbeats :=
        screenshots - {h}, videos - {h}, activities - {h}, heartbeats - {h};
    }

    /** `stopVideo`: stops the stream in the video element, if any. */
    method StopVideo()
      requires StreamsValid()
      modifies this`stream, this`stoppedStreams
      ensures StreamsValid()
      ensures stream == 0 && LiveStreams() == {}
      ensures stoppedStreams == old(stoppedStreams) + (if old(stream) != 0 then {old(stream)} else {})
    {
      if stream != 0 {
        stoppedStreams := stoppedStreams + {stream};
        stream := 0;
      }
    }

    /**
     * `captureScreen`/`setVideo`: releases the current stream first, then, if the
     * capture request is granted, installs the new stream and a recorder on it.
     */
    method CaptureScreen(granted: bool)
      requires StreamsValid()
      modifies this`stream, this`stoppedStreams, this`nextStream, this`recorder
      ensures StreamsValid()
      ensures stoppedStreams == old(stoppedStreams) + (if old(stream) != 0 then {old(stream)} else {})
      ensures granted ==> stream == old(nextStream) && recorder == stream && LiveStreams() == {stream}
      ensures !granted ==> stream == 0 && recorder == old(recorder) && LiveStreams() == {}
    {
      StopVideo();
      if granted {
        stream := nextStream;
        nextStream := nextStream + 1;
        recorder := stream;
        forall s | s in LiveStreams() ensures s == stream {
          if s < stream {
            assert false;
          }
        }
      }
    }

    /** What one call of `trackActivity` does, relative to the state before it. */
    twostate predicate ActivityRecorded()
      reads this
    {
      && userStatus
      && screenshots == old(screenshots) && videos == old(videos) && heartbeats == old(heartbeats)
      && if old(userStatus) || old(userActive) then
           && userActive == old(userActive) && activityTimer == old(activityTimer)
           && activities == old(activities) && nextHandle == old(nextHandle)
           && requests == old(requests)
         else
           && userActive && activityTimer == old(nextHandle) && nextHandle == old(nextHandle) + 1
           && activities == {activityTimer}
           && requests == old(requests) + ResumePosts(profile, iaSlotId)
    }

    /**
     * `trackActivity`: nothing while input has already been seen in this interval;
     * otherwise marks input as seen and, coming back from inactivity, closes the open
     * slot (if any), marks the user active and arms the activity interval.
     */
    method TrackActivity()
      requires Valid()
      modifies this`userStatus, this`userActive, this`requests, this`screenshots, this`videos, this`activities, this`heartbeats,
               this`nextHandle,
               this`activityTimer
      ensures Valid()
      ensures ActivityRecorded()
      ensures userActive == (old(userActive) || !old(userStatus))
    {
      if !userStatus {
        userStatus := true;
        if !userActive {
          ResumeActivity();
        }
      }
    }

    /** The return from inactivity inside `trackActivity`. */
    method ResumeActivity()
      requires TimersValid() && !userActive
      modifies this`userActive, this`requests, this`screenshots, this`videos, this`activities, this`heartbeats,
               this`nextHandle, this`activityTimer
      ensures TimersValid()
      ensures userActive && activityTimer == old(nextHandle) && nextHandle == old(nextHandle) + 1
      ensures activities == {activityTimer}
      ensures screenshots == old(screenshots) && videos == old(videos) && heartbeats == old(heartbeats)
      ensures requests == old(requests) + ResumePosts(profile, iaSlotId)
    {
      requests := requests + ResumePosts(profile, iaSlotId);
      assert activities == {};
      activityTimer := SetInterval(ActivityInterval);
      userActive := true;
    }

    /**
     * One firing of the armed activity interval. Without input since the last firing
     * it cancels itself, marks the user inactive and opens an inactivity slot, keeping
     * the id the service returns (`response`, None when the request fails); otherwise
     * it only clears the seen-input flag.
     */
    method ActivityTick(h: nat, response: Option<nat>)
      requires Valid() && h in activities
      modifies this`userStatus, this`userActive, this`requests, this`screenshots, this`videos, this`activities, this`heartbeats,
               this`iaSlotId
      ensures Valid()
      ensures screenshots == old(screenshots) && videos == old(videos) && heartbeats == old(heartbeats)
      ensures !old(userStatus) ==>
                && h !in activities && activities == {} && !userActive && !userStatus
                && requests == old(requests) + (if profile.Some? then [InactiveStart(profile.value.token, tsId)] else [])
                && iaSlotId == (if profile.Some? && response.Some? then response.value else old(iaSlotId))
      ensures old(userStatus) ==>
                && !userStatus && userActive && activities == old(activities) && requests == old(requests)
                && iaSlotId == old(iaSlotId)
    {
      if !userStatus {
        GoInactive(response);
      } else {
        assert h in TimersOf(ActivityInterval);
        userStatus := false;
      }
    }

    /** The inactivity branch of the activity interval. */
    method GoInactive(response: Option<nat>)
      requires TimersValid()
      modifies this`userActive, this`requests, this`screenshots, this`videos, this`activities, this`heartbeats,
               this`iaSlotId
      ensures TimersValid()
      ensures screenshots == old(screenshots) && videos == old(videos) && heartbeats == old(heartbeats)
      ensures activities == {} && !userActive
      ensures requests == old(requests) + (if profile.Some? then [InactiveStart(profile.value.token, tsId)] else [])
      ensures iaSlotId == (if profile.Some? && response.Some? then response.value else old(iaSlotId))
    {
      ClearInterval(activityTimer);
      userActive := false;
      if profile.Some? {
        requests := requests + [InactiveStart(profile.value.token, tsId)];
        if response.Some? {
          iaSlotId := response.value;
        }
      }
    }

    /**
     * An input event of kind `e`: every listener registered for it calls
     * `trackActivity`, in registration order; after the first, the calls change nothing.
     */
    method OnInput(e: InputEvent)
      requires Valid()
      modifies this`userStatus, this`userActive, this`requests, this`screenshots, this`videos, this`activities, this`heartbeats,
               this`nextHandle,
               this`activityTimer
      ensures Valid()
      ensures screenshots == old(screenshots) && videos == old(videos) && heartbeats == old(heartbeats)
      ensures e in listeners ==> ActivityRecorded()
      ensures e !in listeners ==>
                userStatus == old(userStatus) && userActive == old(userActive)
                && requests == old(requests) && activities == old(activities)
                && activityTimer == old(activityTimer) && nextHandle == old(nextHandle)
    {
      var i := 0;
      while i < |listeners|
        invariant 0 <= i <= |listeners|
        invariant Valid()
        invariant nextHandle >= old(nextHandle)
        invariant screenshots == old(screenshots) && videos == old(videos) && heartbeats == old(heartbeats)
        invariant e in listeners[..i] ==> ActivityRecorded()
        invariant e !in listeners[..i] ==>
                    && userStatus == old(userStatus) && userActive == old(userActive)
                    && activityTimer == old(activityTimer) && activities == old(activities)
                    && nextHandle == old(nextHandle) && requests == old(requests)
      {
        assert listeners[..i + 1] == listeners[..i] + [listeners[i]];
        if listeners[i] == e {
          TrackActivity();
        }
        i := i + 1;
      }
      assert listeners[..i] == listeners;
    }

    /** `sendHeartbeat`. */
    method SendHeartbeat()
      modifies this`requests
      ensures requests == old(requests) + HeartbeatPosts(profile)
    {
      requests := requests + HeartbeatPosts(profile);
    }

    /** One firing of a heartbeat interval. */
    method HeartbeatTick(h: nat)
      requires Valid() && h in heartbeats
      modifies this`requests
      ensures requests == old(requests) + HeartbeatPosts(profile)
    {
      SendHeartbeat();
    }

    /** `initListener`: one more key-release and one more mouse-click listener. */
    method InitListener()
      modifies this`listeners
      ensures listeners == old(listeners) + [KeyRelease, MouseClick]
    {
      listeners := listeners + [KeyRelease, MouseClick];
    }

    /** `removeListener`. */
    method RemoveListener()
      modifies this`listeners
      ensures listeners == []
    {
      listeners := [];
    }

    /**
     * `startMonitoring`: tells the main process, re-acquires the stream, posts a
     * heartbeat, adds listeners, records activity, replaces the screenshot and video
     * intervals (exactly one of each afterwards) and arms one more heartbeat interval
     * without cancelling the previous one.
     */
    method StartMonitoring(granted: bool)
      requires Valid()
      modifies this`ipcSent, this`stream, this`stoppedStreams, this`nextStream, this`recorder,
               this`requests, this`listeners, this`userStatus, this`userActive,
               this`screenshots, this`videos, this`activities, this`heartbeats, this`nextHandle,
               this`screenshotTimer, this`videoTimer, this`activityTimer, this`heartbeatTimer
      ensures Valid()
      ensures ipcSent == old(ipcSent) + [true]
      ensures TimersOf(ScreenshotInterval) == {screenshotTimer}
      ensures TimersOf(VideoInterval) == {videoTimer}
      ensures heartbeatTimer !in old(Armed())
      ensures TimersOf(HeartbeatInterval) == old(TimersOf(HeartbeatInterval)) + {heartbeatTimer}
      ensures userStatus && userActive == (old(userActive) || !old(userStatus))
      ensures TimersOf(ActivityInterval) ==
                (if old(userStatus) || old(userActive) then old(TimersOf(ActivityInterval)) else {activityTimer})
      ensures !(old(userStatus) || old(userActive)) ==> activityTimer !in old(Armed())
      ensures listeners == old(listeners) + [KeyRelease, MouseClick]
      ensures requests == old(requests) + HeartbeatPosts(profile) +
                (if old(userStatus) || old(userActive) then [] else ResumePosts(profile, iaSlotId))
      ensures stoppedStreams == old(stoppedStreams) + (if old(stream) != 0 then {old(stream)} else {})
      ensures granted ==> stream == old(nextStream) && recorder == stream
      ensures !granted ==> stream == 0 && recorder == old(recorder)
    {
      BeginMonitoring(granted);
      RestartCaptureIntervals();
    }

    /** The part of `startMonitoring` before its intervals are replaced. */
    method BeginMonitoring(granted: bool)
      requires Valid()
      modifies this`ipcSent, this`stream, this`stoppedStreams, this`nextStream, this`recorder,
               this`requests, this`listeners, this`userStatus, this`userActive,
               this`screenshots, this`videos, this`activities, this`heartbeats, this`nextHandle,
               this`activityTimer
      ensures Valid()
      ensures ipcSent == old(ipcSent) + [true]
      ensures old(Armed()) <= Armed()
      ensures screenshots == old(screenshots) && videos == old(videos) && heartbeats == old(heartbeats)
      ensures userStatus && userActive == (old(userActive) || !old(userStatus))
      ensures TimersOf(ActivityInterval) ==
                (if old(userStatus) || old(userActive) then old(TimersOf(ActivityInterval)) else {activityTimer})
      ensures !(old(userStatus) || old(userActive)) ==> activityTimer !in old(Armed())
      ensures listeners == old(listeners) + [KeyRelease, MouseClick]
      ensures requests == old(requests) + HeartbeatPosts(profile) +
                (if old(userStatus) || old(userActive) then [] else ResumePosts(profile, iaSlotId))
      ensures stoppedStreams == old(stoppedStreams) + (if old(stream) != 0 then {old(stream)} else {})
      ensures granted ==> stream == old(nextStream) && recorder == stream
      ensures !granted ==> stream == 0 && recorder == old(recorder)
    {
      AnnounceMonitoring(granted);
      TrackActivity();
    }

    /** The steps of `startMonitoring` that touch no interval. */
    method AnnounceMonitoring(granted: bool)
      requires Valid()
      modifies this`ipcSent, this`stream, this`stoppedStreams, this`nextStream, this`recorder,
               this`requests, this`listeners
      ensures Valid()
      ensures ipcSent == old(ipcSent) + [true]
      ensures listeners == old(listeners) + [KeyRelease, MouseClick]
      ensures requests == old(requests) + HeartbeatPosts(profile)
      ensures stoppedStreams == old(stoppedStreams) + (if old(stream) != 0 then {old(stream)} else {})
      ensures granted ==> stream == old(nextStream) && recorder == stream
      ensures !granted ==> stream == 0 && recorder == old(recorder)
    {
      ipcSent := ipcSent + [true];
      CaptureScreen(granted);
      SendHeartbeat();
      InitListener();
    }

    /**
     * The interval part of `startMonitoring`: the screenshot and video intervals are
     * cancelled and re-created, and a heartbeat interval is added. (The source cancels
     * both before creating either; since a cancelled handle is never reissued, the
     * resulting state is the same.)
     */
    method RestartCaptureIntervals()
      requires Valid()
      modifies this`screenshots, this`videos, this`activities, this`heartbeats, this`nextHandle,
               this`screenshotTimer, this`videoTimer, this`heartbeatTimer
      ensures Valid()
      ensures TimersOf(ScreenshotInterval) == {screenshotTimer}
      ensures TimersOf(VideoInterval) == {videoTimer}
      ensures heartbeatTimer !in old(Armed())
      ensures TimersOf(HeartbeatInterval) == old(TimersOf(HeartbeatInterval)) + {heartbeatTimer}
      ensures TimersOf(ActivityInterval) == old(TimersOf(ActivityInterval))
    {
      ReplaceScreenshotInterval();
      ReplaceVideoInterval();
      AddHeartbeatInterval();
    }

    method ReplaceScreenshotInterval()
      requires Valid()
      modifies this`screenshots, this`videos, this`activities, this`heartbeats, this`nextHandle,
               this`screenshotTimer
      ensures Valid()
      ensures screenshots == {screenshotTimer} && screenshotTimer == old(nextHandle)
      ensures nextHandle == old(nextHandle) + 1
      ensures videos == old(videos) && activities == old(activities) && heartbeats == old(heartbeats)
    {
      ClearInterval(screenshotTimer);
      screenshotTimer := SetInterval(ScreenshotInterval);
    }

    method ReplaceVideoInterval()
      requires Valid()
      modifies this`screenshots, this`videos, this`activities, this`heartbeats, this`nextHandle,
               this`videoTimer
      ensures Valid()
      ensures videos == {videoTimer} && videoTimer == old(nextHandle)
      ensures nextHandle == old(nextHandle) + 1
      ensures screenshots == old(screenshots) && activities == old(activities) && heartbeats == old(heartbeats)
    {
      ClearInterval(videoTimer);
      videoTimer := SetInterval(VideoInterval);
    }

    method AddHeartbeatInterval()
      requires Valid()
      modifies this`screenshots, this`videos, this`activities, this`heartbeats, this`nextHandle,
               this`heartbeatTimer
      ensures Valid()
      ensures heartbeats == old(heartbeats) + {heartbeatTimer} && heartbeatTimer == old(nextHandle)
      ensures nextHandle == old(nextHandle) + 1
      ensures screenshots == old(screenshots) && videos == old(videos) && activities == old(activities)
    {
      heartbeatTimer := SetInterval(HeartbeatInterval);
    }

    /**
     * `stopMonitoring`: tells the main process, cancels the screenshot, video and
     * activity intervals, marks the user inactive and drops all listeners. The
     * seen-input flag, the slot id and the heartbeat intervals are left as they were.
     */
    method StopMonitoring()
      requires Valid()
      modifies this`ipcSent, this`screenshots, this`videos, this`activities, this`heartbeats,
               this`userActive, this`listeners
      ensures Valid()
      ensures ipcSent == old(ipcSent) + [false]
      ensures TimersOf(ScreenshotInterval) == {} && TimersOf(VideoInterval) == {}
      ensures TimersOf(ActivityInterval) == {} && !userActive
      ensures TimersOf(HeartbeatInterval) == old(TimersOf(HeartbeatInterval))
      ensures listeners == []
    {
      ipcSent := ipcSent + [false];
      ClearMonitoringIntervals();
      RemoveListener();
    }

    /** The interval part of `stopMonitoring`. */
    method ClearMonitoringIntervals()
      requires Valid()
      modifies this`screenshots, this`videos, this`activities, this`heartbeats, this`userActive
      ensures Valid()
      ensures screenshots == {} && videos == {} && activities == {} && !userActive
      ensures heartbeats == old(heartbeats)
    {
      ClearInterval(screenshotTimer);
      ClearInterval(videoTimer);
      ClearInterval(activityTimer);
      userActive := false;
    }

    /** `stopCaptureScreen`: stops monitoring, drops the recorder and stops the stream. */
    method StopCaptureScreen()
      requires Valid()
      modifies this`ipcSent, this`screenshots, this`videos, this`activities, this`heartbeats,
               this`userActive, this`listeners, this`recorder,
               this`stream, this`stoppedStreams
      ensures Valid()
      ensures ipcSent == old(ipcSent) + [false]
      ensures TimersOf(ScreenshotInterval) == {} && TimersOf(VideoInterval) == {}
      ensures TimersOf(ActivityInterval) == {} && !userActive
      ensures TimersOf(HeartbeatInterval) == old(TimersOf(HeartbeatInterval))
      ensures listeners == [] && recorder == 0 && stream == 0 && LiveStreams() == {}
      ensures stoppedStreams == old(stoppedStreams) + (if old(stream) != 0 then {old(stream)} else {})
    {
      StopMonitoring();
      recorder := 0;
      StopVideo();
    }

    /**
     * The `lockScreen` message. Locking stops capture and drops the listeners; unlocking
     * re-acquires the stream and re-adds listeners but restarts no interval.
     */
    method OnLockScreen(lock: bool, granted: bool)
      requires Valid()
      modifies this`ipcSent, this`screenshots, this`videos, this`activities, this`heartbeats,
               this`userActive, this`listeners, this`recorder,
               this`stream, this`stoppedStreams, this`nextStream
      ensures Valid()
      ensures lock ==>
                && ipcSent == old(ipcSent) + [false]
                && TimersOf(ScreenshotInterval) == {} && TimersOf(VideoInterval) == {}
                && TimersOf(ActivityInterval) == {} && !userActive
                && listeners == [] && recorder == 0 && stream == 0
      ensures lock ==> TimersOf(HeartbeatInterval) == old(TimersOf(HeartbeatInterval))
      ensures lock ==> nextStream == old(nextStream)
      ensures !lock ==>
                && ipcSent == old(ipcSent) && Armed() == old(Armed()) && userActive == old(userActive)
                && listeners == old(listeners) + [KeyRelease, MouseClick]
                && (granted ==> stream == old(nextStream) && recorder == stream)
                && (!granted ==> stream == 0 && recorder == old(recorder))
      ensures stoppedStreams == old(stoppedStreams) + (if old(stream) != 0 then {old(stream)} else {})
    {
      if lock {
        StopCaptureScreen();
        RemoveListener();
      } else {
        CaptureScreen(granted);
        InitListener();
      }
    }

    /**
     * `setMonitoringStatus` from the page, and the `connectionChange` message from the
     * main process: both start monitoring on true and stop it on false.
     */
    method SetMonitoringStatus(status: bool, granted: bool)
      requires Valid()
      modifies this`ipcSent, this`stream, this`stoppedStreams, this`nextStream, this`recorder,
               this`requests, this`listeners, this`userStatus, this`userActive,
               this`screenshots, this`videos, this`activities, this`heartbeats, this`nextHandle,
               this`screenshotTimer, this`videoTimer, this`activityTimer, this`heartbeatTimer
      ensures Valid()
      ensures ipcSent == old(ipcSent) + [status]
      // starting: everything `startMonitoring` promises
      ensures status ==>
                && TimersOf(ScreenshotInterval) == {screenshotTimer}
                && TimersOf(VideoInterval) == {videoTimer}
                && heartbeatTimer !in old(Armed())
                && TimersOf(HeartbeatInterval) == old(TimersOf(HeartbeatInterval)) + {heartbeatTimer}
                && userStatus && userActive == (old(userActive) || !old(userStatus))
                && TimersOf(ActivityInterval) ==
                     (if old(userStatus) || old(userActive) then old(TimersOf(ActivityInterval)) else {activityTimer})
                && (!(old(userStatus) || old(userActive)) ==> activityTimer !in old(Armed()))
                && listeners == old(listeners) + [KeyRelease, MouseClick]
                && requests == old(requests) + HeartbeatPosts(profile) +
                     (if old(userStatus) || old(userActive) then [] else ResumePosts(profile, iaSlotId))
                && stoppedStreams == old(stoppedStreams) + (if old(stream) != 0 then {old(stream)} else {})
                && (granted ==> stream == old(nextStream) && recorder == stream)
                && (!granted ==> stream == 0 && recorder == old(recorder))
      // stopping: everything `stopMonitoring` promises, and nothing else changes
      ensures !status ==>
                && TimersOf(ScreenshotInterval) == {} && TimersOf(VideoInterval) == {}
                && TimersOf(ActivityInterval) == {} && !userActive && listeners == []
                && TimersOf(HeartbeatInterval) == old(TimersOf(HeartbeatInterval))
                && userStatus == old(userStatus) && requests == old(requests)
                && stream == old(stream) && recorder == old(recorder)
                && stoppedStreams == old(stoppedStreams) && nextStream == old(nextStream)
                && nextHandle == old(nextHandle)
                && screenshotTimer == old(screenshotTimer) && videoTimer == old(videoTimer)
                && activityTimer == old(activityTimer) && heartbeatTimer == old(heartbeatTimer)
    {
      if status {
        StartMonitoring(granted);
      } else {
        StopMonitoring();
      }
    }

    /** One firing of the screenshot interval: uploads the frame under a fresh name. */
    method TakeScreenshot(h: nat, now: nat, rand: real)
      requires Valid() && h in screenshots
      requires 0.0 <= rand < 1.0
      modifies this`requests
      ensures requests == old(requests) +
                (if profile.Some? then
                   [UploadImage(FileNames.UploadName(profile.value.id, now, FileNames.RandomSuffix(rand),
                                                     FileNames.Screenshot),
                                profile.value.id, tsId)]
                 else [])
    {
      if profile.Some? {
        var name := FileNames.UploadName(profile.value.id, now, FileNames.RandomSuffix(rand), FileNames.Screenshot);
        requests := requests + [UploadImage(name, profile.value.id, tsId)];
      }
    }

    /** `handleStart`, the recorder's data callback: keeps the chunk, in arrival order. */
    method HandleStart(chunk: Chunk)
      modifies this`recordedChunks
      ensures recordedChunks == old(recordedChunks) + [chunk]
    {
      recordedChunks := recordedChunks + [chunk];
    }

    /**
     * `handleStop`, the recorder's stop callback: the clip is exactly the buffered
     * chunks, the buffer is emptied (even when the upload cannot be built) and the clip
     * is uploaded under a fresh name.
     */
    method HandleStop(now: nat, rand: real)
      requires 0.0 <= rand < 1.0
      modifies this`recordedChunks, this`requests
      ensures recordedChunks == []
      ensures requests == old(requests) +
                (if profile.Some? then
                   [UploadVideo(FileNames.UploadName(profile.value.id, now, FileNames.RandomSuffix(rand),
                                                     FileNames.Clip),
                                old(recordedChunks), profile.value.id, tsId)]
                 else [])
    {
      var clip := recordedChunks;
      recordedChunks := [];
      if profile.Some? {
        var name := FileNames.UploadName(profile.value.id, now, FileNames.RandomSuffix(rand), FileNames.Clip);
        requests := requests + [UploadVideo(name, clip, profile.value.id, tsId)];
      }
    }
  }

  /**
   * Stopping monitoring while the seen-input flag is set leaves activity tracking off
   * through any later restart, however late: stopping cancels the activity interval,
   * the only code that clears the flag, and `trackActivity` is a no-op while it is set.
   */
  method RestartLeavesTrackingOff(t: Tracker, granted: bool, e: InputEvent)
    requires t.Valid() && t.userStatus
    modifies t
    ensures t.Valid()
    ensures t.userStatus && !t.userActive && t.TimersOf(ActivityInterval) == {}
  {
    t.StopMonitoring();
    t.StartMonitoring(granted);
    t.OnInput(e);
  }

  /** Every start arms one more heartbeat interval; stopping cancels none of them. */
  method RestartAddsHeartbeats(t: Tracker, granted: bool)
    requires t.Valid()
    modifies t
    ensures t.Valid()
    ensures |t.TimersOf(HeartbeatInterval)| == |old(t.TimersOf(HeartbeatInterval))| + 2
  {
    ghost var before := t.TimersOf(HeartbeatInterval);
    t.StartMonitoring(granted);
    ghost var first := t.heartbeatTimer;
    assert first !in before;
    ghost var afterFirst := t.TimersOf(HeartbeatInterval);
    assert afterFirst == before + {first};
    t.StopMonitoring();
    assert t.TimersOf(HeartbeatInterval) == afterFirst;
    t.StartMonitoring(granted);
    assert t.heartbeatTimer !in afterFirst;
    assert t.TimersOf(HeartbeatInterval) == afterFirst + {t.heartbeatTimer};
  }
}
