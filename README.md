# Employee-monitoring agent: session controller and renderer tracker

This project models the two small state machines at the heart of a desktop
employee-monitoring agent. The agent is an Electron application.

- **The main process** (`main.js`) is modelled as the class
  `MainProcess.SessionController`. It covers:
  - the connectivity flag, edge-detected by a periodic probe;
  - the `isMonitoring` flag, which the renderer keeps up to date over the
    `setMonitoring` channel;
  - the single "forgot to start" reminder interval;
  - the content-view page (`getHomePage`) and the tray menu (`updateTray`);
  - the message channel, replaced on every reconnection;
  - the screen-lock messages and the relaunch on unlock.
- **The renderer's preload script** (`preload.js`) is modelled as the class
  `Renderer.Tracker`. It covers:
  - the screenshot, video, activity and heartbeat intervals that monitoring
    starts and stops;
  - the inactivity tracker: the seen-input flag `userStatus`, the active flag
    `userActive`, the open inactivity slot, and `trackActivity` driven by the
    input listeners;
  - the screen stream and the recorder;
  - the recorded-chunk buffer;
  - the requests the tracker posts to the service.
- **Upload file names** (`FileNames`) are built from the user id, `Date.now()`
  and a random suffix.
- **`Bridge`** composes the two processes over the IPC channel: page start/stop,
  screen lock and screen unlock.

How the model represents the environment:

- **Timers** are abstract handles drawn from a counter, with 0 standing for
  JavaScript's `undefined`. The armed handles are kept as sets, and
  `clearInterval(h)` disarms `h` whatever it runs. One firing of an interval is a
  method (`ReminderTick`, `ActivityTick`, `HeartbeatTick`, `TakeScreenshot`) that
  requires its handle to be armed.
- **HTTP posts** are appended to a request log (`requests`). Messages between the
  processes are appended to logs too: `sent` for main to renderer, `ipcSent` for
  renderer to main. Shown notifications go to `shown`.
- **Outside inputs become parameters.** The connectivity probe's result, whether
  the page load succeeded, the screen size, whether screen capture is granted, the
  slot id the service returns, `Date.now()` and `Math.random()` are all passed in.
- **The profile** is `Option<Profile>`, where `None` is the `undefined` profile.
  Reading a token or id from `None` throws in the source. Inside a `try` that
  means the request is not posted. In the upload callbacks it means no upload.
- **Monitoring intervals are per-kind handle sets.** `Tracker.Valid()` keeps these
  invariants:
  - at most one screenshot interval and one video interval are armed;
  - the activity interval is armed exactly while `userActive` holds;
  - handles are never reused;
  - at most one screen stream is live, and it is the one in the video element.
- **The reminder.** `SessionController.Valid()` keeps at most one reminder armed.
  It also ties the connectivity flag, and the changes reported so far, to the
  history of probe results through `Final` and `ChangeEvents`.

Behaviour of the code as written that the model keeps and states:

- **Heartbeat intervals leak.** Every `startMonitoring` arms one more heartbeat
  interval and nothing ever cancels one (`StartMonitoring`,
  `RestartAddsHeartbeats`).
- **A restart can leave activity tracking off.** Suppose monitoring is stopped
  while `userStatus` is set. Stopping cancels the activity interval, which is the
  only code that clears the flag. From then on `trackActivity` does nothing, so
  any later restart, however late, leaves tracking off until the page reloads
  (`RestartLeavesTrackingOff`).
- **The file-name separator.** The code puts no separator between the timestamp
  and the random suffix, so two different (timestamp, suffix) pairs can give the
  same name (`UploadNameAmbiguous`). The name is unambiguous whenever the
  timestamps have the same number of digits (`UploadNameInjective`).
- **Unlocking restarts no capture.** A screen unlock re-acquires the stream and
  re-adds the listeners, but re-arms no capture interval. The main process then
  relaunches itself (`ScreenUnlocked`).

## Model

| member | source | states |
|---|---|---|
| MainProcess.HomePage | main.js:206-216 | the page is a `file:` URL exactly when offline; online it is the local domain in development and the live domain otherwise; offline it is the `no-internet.html` page under the application directory |
| MainProcess.TrayMenu | main.js:162-195 | always two items, the second is Quit; the first posts "stop" when monitoring and "start" when not (both directions) |
| MainProcess.ChangeEventsSnoc | main.js:231-241 | one more probe result adds a change event exactly when it differs from the current flag, and the event carries the new value |
| MainProcess.ChangeEventsBound | main.js:231-241 | there are never more change events than probe results |
| MainProcess.ChangeEventsAlternate | main.js:231-241 | the first change event differs from the starting flag and each later one from the one before: only flips are reported |
| MainProcess.ChangeEventsFinal | main.js:231-241 | replaying the change events alone ends at the same flag as the probe results: no flip is missed |
| MainProcess.ChangeEventsSilent | main.js:231-241 | the callback never fires if and only if every probe result repeats the starting flag |
| MainProcess.SessionController.constructor | main.js:29-44 | offline, not monitoring, no reminder, no channel, nothing sent or shown |
| MainProcess.SessionController.Notify | main.js:302-307 | a notification is shown exactly when notifications are supported |
| MainProcess.SessionController.MonitoringChecker | main.js:293-300 | the old reminder is always cancelled; afterwards exactly one fresh reminder is armed if `check`, none otherwise |
| MainProcess.SessionController.ReminderTick | main.js:296-298 | an armed reminder shows the "don't forget to start" notice (when supported) |
| MainProcess.SessionController.UpdateTray | main.js:162-195 | the menu becomes the one chosen for the current monitoring flag |
| MainProcess.SessionController.SetMonitoring | main.js:197-204 | the flag becomes `status`; "Timer Started"/"Timer Stopped" is shown only when the flag changed; the reminder is armed exactly when `status` is false, changed or not; the tray shows the new flag |
| MainProcess.SessionController.IsConnected | main.js:218-229 | the flag becomes the probe result and no change event is recorded |
| MainProcess.SessionController.OpenChannel | main.js:253-278 | the main process's end (`port2`) of the previous channel, if any, is closed, a fresh pair replaces both ports, and the renderer is sent the first port and the screen size |
| MainProcess.SessionController.ConnectionChange | main.js:243-285 | notice only if `notif` (and supported); offline sends `connectionChange(false)` even if the load then fails; after a successful load, online replaces the channel and keeps the reminder, offline keeps the ports and disarms the reminder; a failed load changes neither |
| MainProcess.SessionController.ReloadPage | main.js:249-281 | after a successful load the page is the home page for the current flag; online the channel is replaced and the reminder kept; offline the ports are kept, nothing is sent and the reminder is disarmed |
| MainProcess.SessionController.CheckConnection | main.js:231-241 | the flag becomes the probe result; `connectionChange` (with notification) runs exactly when the result differs from the old flag, and otherwise nothing visible changes |
| MainProcess.SessionController.CreateWindows | main.js:69-109 | start-up: a silent probe, a `connectionChange` that shows nothing, the Quit-only tray menu; the monitoring flag and the relaunch flag untouched |
| MainProcess.SessionController.OnLockScreen | main.js:151-154 | the renderer is sent `lockScreen(true)` |
| MainProcess.SessionController.OnUnlockScreen | main.js:155-160 | the renderer is sent `lockScreen(false)` and a relaunch is requested |
| FileNames.Decimal | preload.js:257 | the rendering of a number is a non-empty digit string that starts with `0` only for zero itself |
| FileNames.DecimalRoundTrip | preload.js:257 | reading back the decimal rendering of `n` gives `n` |
| FileNames.DecimalInjective | preload.js:257 | different timestamps or suffixes render differently |
| FileNames.RandomSuffix | preload.js:257 | `Math.floor(Math.random() * 100)` lies in 0..99; it is the floor of the exact product of the draw and 100 |
| FileNames.UploadName | preload.js:235 | the name is the user id, a dash, the timestamp digits immediately followed by the suffix digits, and `.png` or `.webm` |
| FileNames.UploadNameInjective | preload.js:257 | with equal-width timestamps, the name determines the timestamp, the suffix and the artifact kind |
| FileNames.UploadNameAmbiguous | preload.js:257 | without that assumption two different (timestamp, suffix) pairs give the same name |
| Renderer.Tracker.constructor | preload.js:22-34 | no profile, no slot, no interval armed, inactive, no listeners, no stream, empty chunk buffer |
| Renderer.Tracker.SetLoginState | preload.js:69-71 | the profile becomes the given one |
| Renderer.Tracker.SetTimesheet | preload.js:72-74 | the timesheet id becomes the given one |
| Renderer.Tracker.SetInterval | preload.js:194-198 | a handle never armed before becomes armed under exactly the requested kind |
| Renderer.Tracker.ClearInterval | preload.js:191-192 | the handle is disarmed whatever it runs; nothing else changes |
| Renderer.Tracker.StopVideo | preload.js:107-115 | the current stream, if any, is stopped and no stream stays live |
| Renderer.Tracker.CaptureScreen | preload.js:94-105 | the current stream is always released first; when capture is granted a fresh stream and its recorder are installed and it is the only live stream |
| Renderer.Tracker.TrackActivity | preload.js:135-181 | a no-op while input was already seen; otherwise marks input seen and, coming back from inactivity, posts the end of the open slot (only if one is recorded), becomes active and arms one activity interval |
| Renderer.Tracker.ResumeActivity | preload.js:138-156 | the inactive-to-active step: the slot-end post, the active flag and exactly one fresh activity interval |
| Renderer.Tracker.ActivityTick | preload.js:156-178 | without input since the last firing it cancels itself, becomes inactive, posts the slot start and keeps the returned id; with input it only clears the seen-input flag |
| Renderer.Tracker.GoInactive | preload.js:157-174 | the inactivity step: no activity interval, inactive, slot-start post, slot id from the response |
| Renderer.Tracker.OnInput | preload.js:210-213 | an event with a registered listener has exactly the effect of one `trackActivity`; an event without one changes nothing; either way the screenshot, video and heartbeat intervals are kept |
| Renderer.Tracker.SendHeartbeat | preload.js:281-296 | one heartbeat post carrying the profile's token |
| Renderer.Tracker.HeartbeatTick | preload.js:198 | a firing heartbeat interval posts one heartbeat |
| Renderer.Tracker.InitListener | preload.js:210-213 | one more key-release and one more mouse-click listener |
| Renderer.Tracker.RemoveListener | preload.js:215-217 | no listener remains |
| Renderer.Tracker.StartMonitoring | preload.js:183-199 | reports `true`, re-acquires the stream, posts a heartbeat, adds listeners, records activity; afterwards exactly one screenshot and one video interval are armed, and one fresh heartbeat interval joins the old ones; an activity interval already armed (or input already seen) is kept as it was, and coming back from inactivity arms exactly one fresh activity interval |
| Renderer.Tracker.BeginMonitoring | preload.js:184-189 | the steps before the interval replacement; no capture or heartbeat interval changes |
| Renderer.Tracker.AnnounceMonitoring | preload.js:184-188 | the report, the stream, the heartbeat post and the listeners |
| Renderer.Tracker.RestartCaptureIntervals | preload.js:191-198 | exactly one fresh screenshot and video interval each, one more heartbeat interval, activity interval untouched |
| Renderer.Tracker.ReplaceScreenshotInterval | preload.js:191-194 | the old screenshot interval is cancelled and exactly one fresh one is armed |
| Renderer.Tracker.ReplaceVideoInterval | preload.js:192-196 | the old video interval is cancelled and exactly one fresh one is armed |
| Renderer.Tracker.AddHeartbeatInterval | preload.js:198 | a fresh heartbeat interval is added and none is cancelled |
| Renderer.Tracker.StopMonitoring | preload.js:201-208 | reports `false`; no screenshot, video or activity interval remains; inactive; no listeners; heartbeat intervals, seen-input flag and slot id untouched |
| Renderer.Tracker.ClearMonitoringIntervals | preload.js:203-206 | screenshot, video and activity intervals cancelled, inactive, heartbeats untouched |
| Renderer.Tracker.StopCaptureScreen | preload.js:88-92 | everything `stopMonitoring` does, plus no recorder and no live stream |
| Renderer.Tracker.OnLockScreen | preload.js:41-50 | locking stops capture and drops listeners and the stream; unlocking re-acquires the stream and re-adds listeners but arms no interval and reports nothing |
| Renderer.Tracker.SetMonitoringStatus | preload.js:52-54 | reports the status either way; true has everything `startMonitoring` promises, including one more heartbeat interval and the activity-interval outcome; false has everything `stopMonitoring` promises and leaves the requests, the stream, the seen-input flag, the heartbeat intervals and every stored handle as they were (also the page call at preload.js:66-68) |
| Renderer.Tracker.TakeScreenshot | preload.js:250-271 | one image upload under the name built from the profile id, the time and the suffix, with the profile id and timesheet id; none without a profile |
| Renderer.Tracker.HandleStart | preload.js:219-221 | the chunk is appended after those already buffered |
| Renderer.Tracker.HandleStop | preload.js:223-248 | the buffer is left empty and the clip uploaded is exactly the chunks buffered before, in order |
| Renderer.RestartLeavesTrackingOff | preload.js:135-208 | stop (while input is marked seen) then start, at any later time, leaves the tracker inactive with no activity interval, even after further input |
| Renderer.RestartAddsHeartbeats | preload.js:198-208 | start, stop, start leaves two more heartbeat intervals armed than before |
| Bridge.SetMonitoringFromPage | main.js:197-204 | after the page starts or stops monitoring, the main process's flag, reminder and tray agree with the renderer's capture intervals |
| Bridge.ScreenLocked | main.js:151-154 | a lock leaves capture stopped in the renderer and the main process not monitoring, with the reminder armed |
| Bridge.ScreenUnlocked | main.js:155-160 | an unlock requests a relaunch, re-adds listeners, and changes neither the armed intervals nor the main process's monitoring state |

## Left out

- Electron presentation is not modelled: windows, the dock, tray icons, the tray click handler, `removeMenu` and `openDevTools`. Only the menu that is chosen is kept.
- `autoUpdater`, `AutoLaunch`, the single-instance lock, `electron-log` and `powerSaveBlocker` are foreign calls with no state here.
- `app.relaunch()`/`app.exit()` are recorded only as the `relaunchRequested` flag. A relaunch restarting both processes is not modelled.
- The connectivity probe, the HTTP transport and the media primitives are outside the model. Their results are parameters:
  - the probe's result;
  - whether the page loaded;
  - whether screen capture is granted;
  - the returned slot id.
- Asynchronous interleaving is not modelled: each handler runs as one atomic step. This covers:
  - the awaited post inside the activity interval;
  - fire-and-forget uploads;
  - messages in flight while the page reloads;
  - overlapping `checkConnection` ticks. The old flag is read before the awaited probe (main.js:232-234), and the probe can take up to 5 s per try with 3 retries (main.js:36-40), longer than the 2 s tick (main.js:288-290). Two overlapping checks that read the same flag can both call `connectionChange`, or miss a flip back. `ChangeEventsAlternate`, `ChangeEventsFinal` and `ChangeEventsSilent` hold under the one-step-per-tick abstraction only;
  - the asynchronous `getUserMedia(...).then(handleStream)` in `setVideo` (preload.js:96-104), which `CaptureScreen` folds into one step. "At most one screen stream is live" relies on that: in the source, two quick `captureScreen` calls both run `stopVideo` before either stream arrives, and the first stream is then never stopped.
- `takeVideo` is not modelled: the recorder's start, the 6-second stop timer and its firing. Only "recorder present" and the chunk buffer are kept, with `HandleStart`/`HandleStop` as the recorder's callbacks.
- Canvas drawing, `handleStream`'s sizing of the video element and canvas, and blob encoding are not modelled.
- The `screenSize` and `initCommunication` handlers in the renderer are not modelled. They only store the size or forward the port to the page.
- Reloading the page, which starts a fresh copy of the renderer script, is not modelled.
- Tray clicks that post "start"/"stop" to the page are not modelled. The page's reaction is not part of this model.
- NoInternetPage: gives the POSIX form `file://` + directory + `/no-internet.html`, with the directory taken as an absolute, already-normal path. `path.join` normalisation and `url.format` escaping are not modelled. On Windows, which the installer targets, the source instead adds `/` before the drive letter and uses `\` separators (`file:///C:\...\no-internet.html`); that form is not modelled.
- FileNames.RandomSuffix: floors the exact real product `x * 100`, while JavaScript floors the float-rounded product. For a draw such as 0.22999999999999998 the source gets 23 and the model 22. The 0..99 bound holds either way.
- FileNames.Decimal: JavaScript renders numbers at or above 10^21 in exponent notation; the model always renders plain decimal digits.
- Renderer.Tracker.SetLoginState: the default `{}` profile (no id, no token) is treated like a missing profile. The source would instead post with `undefined` in the token and name.
- MainProcess.SessionController.CreateWindows: a `setMonitoring` message that arrives before the tray exists is not modelled. In the source it would throw in `updateTray`.
- The `activate` handler's call to the undefined `createWindow` is not modelled.
- The unreferenced `setInterval` return of `startInternetChecker` is not modelled. Each tick is one `CheckConnection` call.
