/**
 * The Electron main process's session controller: edge-detected connectivity, the
 * monitoring flag kept in step with the renderer, the "forgot to start" reminder
 * interval, the content-view page, the tray menu and the message port handed to the
 * renderer on every reconnection.
 */
module MainProcess {

  const IS_DEV := true
  const LOCAL_DOMAIN := "http://localhost:3000"
  const LIVE_DOMAIN := "https://d34.vvelocity.com"
  const TITLE := "Tracker"
  const REMINDER_TEXT := "Your timer is stop, don't forget to start"

  datatype Notice = Notice(title: string, body: string)
  datatype ScreenSize = ScreenSize(width: int, height: int)

  /** Messages the main process sends to the content view. */
  datatype ToRenderer =
    | ConnectionChangeMsg(online: bool)
    | InitCommunication(port: nat)
    | ScreenSizeMsg(size: ScreenSize)
    | LockScreenMsg(locked: bool)

  datatype MenuAction = PostStatus(status: string) | Quit
  datatype MenuItem = MenuItem(caption: string, action: MenuAction)

  const QUIT_ITEM := MenuItem("Quit", Quit)

  function ConnectivityText(connected: bool): string
  {
    if connected then "You're online" else "You're offline"
  }

  function StatusText(started: bool): string
  {
    if started then "Timer Started" else "Timer Stopped"
  }

  /** The offline fallback page, a `file:` URL under the application directory. */
  function NoInternetPage(appDir: string): string
  {
    "file://" + appDir + "/no-internet.html"
  }

  predicate IsFileUrl(u: string)
  {
    |u| >= 7 && u[..7] == "file://"
  }

  /** The page the content view is pointed at (`getHomePage`). */
  function HomePage(connected: bool, isDev: bool, appDir: string): (u: string)
    ensures IsFileUrl(u) <==> !connected
    ensures connected ==> u == (if isDev then LOCAL_DOMAIN else LIVE_DOMAIN)
    ensures !connected ==> u == NoInternetPage(appDir)
  {
    if connected then
      assert LOCAL_DOMAIN[0] == LIVE_DOMAIN[0] == 'h';
      if isDev then LOCAL_DOMAIN else LIVE_DOMAIN
    else
      NoInternetPage(appDir)
  }

  /**
   * The tray's context menu (`updateTray`): one item that asks the content view for the
   * opposite of the current monitoring state, then Quit.
   */
  function TrayMenu(isMonitoring: bool): (items: seq<MenuItem>)
    ensures |items| == 2 && items[1] == QUIT_ITEM
    ensures items[0].action.PostStatus?
    ensures items[0].action.status == (if isMonitoring then "stop" else "start")
    ensures items[0].action.status == "start" <==> !isMonitoring
  {
    if isMonitoring then
      [MenuItem("\U{1F534} Stop", PostStatus("stop")), QUIT_ITEM]
    else
      [MenuItem("\U{1F7E2} Start", PostStatus("start")), QUIT_ITEM]
  }

  // ---- Edge detection over a history of probe results ----

  /** The connectivity flag after a history of probe results, starting from `base`. */
  function Final(base: bool, probes: seq<bool>): bool
  {
    if probes == [] then base else probes[|probes| - 1]
  }

  /**
   * The values `connected` holds each time the change callback fires while the probe
   * results `probes` arrive, starting from `base`: one per result that differs from
   * the one before it.
   */
  function ChangeEvents(base: bool, probes: seq<bool>): seq<bool>
    decreases |probes|
  {
    if probes == [] then []
    else (if probes[0] != base then [probes[0]] else []) + ChangeEvents(probes[0], probes[1..])
  }

  /** One more probe result adds an event exactly when it differs from the current flag. */
  lemma {:induction false} ChangeEventsSnoc(base: bool, probes: seq<bool>, p: bool)
    ensures ChangeEvents(base, probes + [p])
         == ChangeEvents(base, probes) + (if p != Final(base, probes) then [p] else [])
    decreases |probes|
  {
    if probes == [] {
      assert [p][1..] == [];
    } else {
      assert (probes + [p])[1..] == probes[1..] + [p];
      ChangeEventsSnoc(probes[0], probes[1..], p);
      assert Final(probes[0], probes[1..]) == Final(base, probes);
    }
  }

  /** There are never more events than results. */
  lemma {:induction false} ChangeEventsBound(base: bool, probes: seq<bool>)
    ensures |ChangeEvents(base, probes)| <= |probes|
    decreases |probes|
  {
    if probes != [] {
      ChangeEventsBound(probes[0], probes[1..]);
    }
  }

  /**
   * The events alternate: the first differs from `base` and each later one from the
   * one before it, so the callback is told of every flip and of nothing else.
   */
  lemma {:induction false} ChangeEventsAlternate(base: bool, probes: seq<bool>)
    ensures ChangeEvents(base, probes) != [] ==> ChangeEvents(base, probes)[0] != base
    ensures forall i :: 0 < i < |ChangeEvents(base, probes)| ==>
              ChangeEvents(base, probes)[i] != ChangeEvents(base, probes)[i - 1]
    decreases |probes|
  {
    if probes != [] {
      var rest := ChangeEvents(probes[0], probes[1..]);
      ChangeEventsAlternate(probes[0], probes[1..]);
      if probes[0] != base {
        var ev := [probes[0]] + rest;
        assert ChangeEvents(base, probes) == ev;
        forall i | 0 < i < |ev|
          ensures ev[i] != ev[i - 1]
        {
          assert ev[i] == rest[i - 1];
          if i > 1 {
            assert ev[i - 1] == rest[i - 2];
          }
        }
      } else {
        assert ChangeEvents(base, probes) == rest;
      }
    }
  }

  /** Replaying the events alone ends at the same flag as the probe results. */
  lemma {:induction false} ChangeEventsFinal(base: bool, probes: seq<bool>)
    ensures Final(base, ChangeEvents(base, probes)) == Final(base, probes)
    decreases |probes|
  {
    if probes != [] {
      var rest := ChangeEvents(probes[0], probes[1..]);
      ChangeEventsFinal(probes[0], probes[1..]);
      assert Final(probes[0], probes[1..]) == Final(base, probes);
      if probes[0] != base {
        assert ChangeEvents(base, probes) == [probes[0]] + rest;
      } else {
        assert ChangeEvents(base, probes) == rest;
      }
    }
  }

  /** The callback never fires if and only if every result repeats the starting flag. */
  lemma {:induction false} ChangeEventsSilent(base: bool, probes: seq<bool>)
    ensures ChangeEvents(base, probes) == [] <==> forall i :: 0 <= i < |probes| ==> probes[i] == base
    decreases |probes|
  {
    if probes != [] {
      ChangeEventsSilent(probes[0], probes[1..]);
      if probes[0] == base {
        forall i | 0 <= i < |probes| - 1 ensures probes[1..][i] == probes[i + 1] { }
      }
    }
  }

  /** The main process's module-level state, as one object. */
  class SessionController {
    /** Whether `Notification.isSupported()`. */
    const supported: bool
    /** The application directory the offline page lives in. */
    const appDir: string

    var connected: bool
    var isMonitoring: bool
    /** Handle last stored in `monitoringTimer` (0 stands for `undefined`). */
    var monitoringTimer: nat
    /** Handles of the reminder intervals that are currently armed. */
    var reminders: set<nat>
    var nextHandle: nat
    /** The two ends of the current message channel (0 stands for `undefined`). */
    var port1: nat
    var port2: nat
    var nextPort: nat
    var closedPorts: set<nat>
    var sent: seq<ToRenderer>
    var shown: seq<Notice>
    var page: string
    var menu: seq<MenuItem>
    var relaunchRequested: bool

    /** The connectivity history seen by the periodic checker, from `probeBase` on. */
    ghost var probeBase: bool
    ghost var probes: seq<bool>
    ghost var changes: seq<bool>

    ghost predicate Valid()
      reads this
    {
      && 1 <= nextHandle
      && monitoringTimer < nextHandle
      && (forall h :: h in reminders ==> 1 <= h < nextHandle)
      && reminders <= {monitoringTimer}
      && 1 <= nextPort
      && port1 < nextPort && port2 < nextPort
      && (forall p :: p in closedPorts ==> p < nextPort)
      && connected == Final(probeBase, probes)
      && changes == ChangeEvents(probeBase, probes)
    }

    /** Whether a "forgot to start" reminder interval is armed. */
    predicate ReminderArmed()
      reads this
    {
      reminders != {}
    }

    constructor (supported: bool, appDir: string)
      ensures Valid()
      ensures this.supported == supported && this.appDir == appDir
      ensures !connected && !isMonitoring && !ReminderArmed()
      ensures port1 == 0 && port2 == 0 && closedPorts == {}
      ensures sent == [] && shown == [] && menu == [] && !relaunchRequested
    {
      this.supported := supported;
      this.appDir := appDir;
      connected, isMonitoring := false, false;
      monitoringTimer, reminders, nextHandle := 0, {}, 1;
      port1, port2, nextPort, closedPorts := 0, 0, 1, {};
      sent, shown, page, menu := [], [], "", [];
      relaunchRequested := false;
      probeBase, probes, changes := false, [], [];
    }

    /** `notification`: shown only where notifications are supported. */
    method Notify(title: string, body: string)
      modifies this`shown
      ensures shown == old(shown) + (if supported then [Notice(title, body)] else [])
    {
      if supported {
        shown := shown + [Notice(title, body)];
      }
    }

    /**
     * `monitoringChecker`: cancels the interval in `monitoringTimer` and arms a new one
     * exactly when `check` holds, so at most one reminder is ever armed.
     */
    method MonitoringChecker(check: bool)
      requires Valid()
      modifies this`reminders, this`monitoringTimer, this`nextHandle
      ensures Valid()
      ensures reminders == (if check then {monitoringTimer} else {})
      ensures check ==> monitoringTimer !in old(reminders) && nextHandle == old(nextHandle) + 1
      ensures !check ==> monitoringTimer == old(monitoringTimer) && nextHandle == old(nextHandle)
    {
      reminders := reminders - {monitoringTimer};
      if check {
        monitoringTimer := nextHandle;
        nextHandle := nextHandle + 1;
        reminders := reminders + {monitoringTimer};
      }
    }

    /** One firing of an armed reminder interval. */
    method ReminderTick(h: nat)
      requires Valid() && h in reminders
      modifies this`shown
      ensures shown == old(shown) + (if supported then [Notice(TITLE, REMINDER_TEXT)] else [])
    {
      Notify(TITLE, REMINDER_TEXT);
    }

    /** `updateTray`. */
    method UpdateTray()
      modifies this`menu
      ensures menu == TrayMenu(isMonitoring)
    {
      menu := TrayMenu(isMonitoring);
    }

    /**
     * The `setMonitoring` IPC handler: records the renderer's state, announces only a
     * change, leaves the reminder armed exactly when monitoring is off (changed or not)
     * and redraws the tray.
     */
    method SetMonitoring(status: bool)
      requires Valid()
      modifies this`isMonitoring, this`shown, this`reminders, this`monitoringTimer, this`nextHandle,
               this`menu
      ensures Valid()
      ensures isMonitoring == status
      ensures shown == old(shown) +
                (if old(isMonitoring) != status && supported then [Notice(TITLE, StatusText(status))] else [])
      ensures reminders == (if status then {} else {monitoringTimer})
      ensures !status ==> monitoringTimer !in old(reminders)
      ensures menu == TrayMenu(status)
    {
      if isMonitoring != status {
        isMonitoring := status;
        Notify(TITLE, StatusText(status));
      }
      MonitoringChecker(!status);
      UpdateTray();
    }

    /** `isConnected`: sets the flag from a probe and fires no change callback. */
    method IsConnected(probe: bool)
      requires Valid()
      modifies this`connected, this`probeBase, this`probes, this`changes
      ensures Valid()
      ensures connected == probe
      ensures changes == []
    {
      connected := probe;
      probeBase, probes, changes := probe, [], [];
    }

    /** What one run of `connectionChange(notif)` does, given whether the page loaded. */
    twostate predicate ConnectionChangeEffect(notif: bool, loadOk: bool, screen: ScreenSize)
      reads this
    {
      && shown == old(shown) + (if notif && supported then [Notice(TITLE, ConnectivityText(connected))] else [])
      && page == (if loadOk then HomePage(connected, IS_DEV, appDir) else old(page))
      && monitoringTimer == old(monitoringTimer) && nextHandle == old(nextHandle)
      && if loadOk && connected then
           && closedPorts == old(closedPorts) + (if old(port2) != 0 then {old(port2)} else {})
           && port1 == old(nextPort) && port2 == old(nextPort) + 1 && nextPort == old(nextPort) + 2
           && port1 !in closedPorts && port2 !in closedPorts
           && sent == old(sent) + [InitCommunication(port1), ScreenSizeMsg(screen)]
           && reminders == old(reminders)
         else
           && port1 == old(port1) && port2 == old(port2) && nextPort == old(nextPort)
           && closedPorts == old(closedPorts)
           && sent == old(sent) + (if connected then [] else [ConnectionChangeMsg(false)])
           && reminders == (if loadOk then {} else old(reminders))
    }

    /**
     * The online branch of `connectionChange`: closes the main process's end (`port2`) of
     * the previous channel, opens a fresh channel, hands its first port to the renderer
     * and sends the screen size.
     */
    method OpenChannel(screen: ScreenSize)
      requires Valid()
      modifies this`port1, this`port2, this`nextPort, this`closedPorts, this`sent
      ensures Valid()
      ensures closedPorts == old(closedPorts) + (if old(port2) != 0 then {old(port2)} else {})
      ensures port1 == old(nextPort) && port2 == old(nextPort) + 1 && nextPort == old(nextPort) + 2
      ensures port1 !in closedPorts && port2 !in closedPorts
      ensures sent == old(sent) + [InitCommunication(port1), ScreenSizeMsg(screen)]
    {
      if port2 != 0 {
        closedPorts := closedPorts + {port2};
      }
      port1, port2, nextPort := nextPort, nextPort + 1, nextPort + 2;
      sent := sent + [InitCommunication(port1), ScreenSizeMsg(screen)];
    }

    /**
     * `connectionChange`: announces the new state if `notif`, tells the renderer when
     * offline, reloads the page and, if that succeeds, either replaces the message
     * channel (closing the main process's end of the old one) or disarms the reminder.
     */
    method ConnectionChange(notif: bool, loadOk: bool, screen: ScreenSize)
      requires Valid()
      modifies this`shown, this`sent, this`page, this`port1, this`port2, this`nextPort,
               this`closedPorts, this`reminders, this`monitoringTimer, this`nextHandle
      ensures Valid()
      ensures ConnectionChangeEffect(notif, loadOk, screen)
    {
      if notif {
        Notify(TITLE, ConnectivityText(connected));
      }
      if !connected {
        sent := sent + [ConnectionChangeMsg(false)];
      }
      if loadOk {
        ReloadPage(screen);
      }
    }

    /**
     * The part of `connectionChange` after the page has loaded: online, a fresh message
     * channel; offline, the reminder disarmed.
     */
    method ReloadPage(screen: ScreenSize)
      requires Valid()
      modifies this`page, this`port1, this`port2, this`nextPort, this`closedPorts, this`sent,
               this`reminders, this`monitoringTimer, this`nextHandle
      ensures Valid()
      ensures page == HomePage(connected, IS_DEV, appDir)
      ensures monitoringTimer == old(monitoringTimer) && nextHandle == old(nextHandle)
      ensures connected ==>
                && closedPorts == old(closedPorts) + (if old(port2) != 0 then {old(port2)} else {})
                && port1 == old(nextPort) && port2 == old(nextPort) + 1 && nextPort == old(nextPort) + 2
                && port1 !in closedPorts && port2 !in closedPorts
                && sent == old(sent) + [InitCommunication(port1), ScreenSizeMsg(screen)]
                && reminders == old(reminders)
      ensures !connected ==>
                && port1 == old(port1) && port2 == old(port2) && nextPort == old(nextPort)
                && closedPorts == old(closedPorts) && sent == old(sent) && reminders == {}
    {
      page := HomePage(connected, IS_DEV, appDir);
      if connected {
        OpenChannel(screen);
      } else {
        MonitoringChecker(false);
      }
    }

    /**
     * `checkConnection`, one tick of the 2-second checker: the flag follows the probe,
     * and `connectionChange` runs exactly when the result differs from the old flag.
     */
    method CheckConnection(probe: bool, loadOk: bool, screen: ScreenSize)
      requires Valid()
      modifies this`connected, this`probes, this`changes, this`shown, this`sent, this`page,
               this`port1, this`port2, this`nextPort, this`closedPorts, this`reminders,
               this`monitoringTimer, this`nextHandle
      ensures Valid()
      ensures connected == probe
      ensures probeBase == old(probeBase) && probes == old(probes) + [probe]
      ensures changes == old(changes) + (if probe != old(connected) then [probe] else [])
      ensures probe != old(connected) ==> ConnectionChangeEffect(true, loadOk, screen)
      ensures probe == old(connected) ==>
                shown == old(shown) && sent == old(sent) && page == old(page) && port1 == old(port1)
                && port2 == old(port2) && reminders == old(reminders)
                && closedPorts == old(closedPorts) && nextPort == old(nextPort)
                && monitoringTimer == old(monitoringTimer) && nextHandle == old(nextHandle)
    {
      var was := connected;
      connected := probe;
      ChangeEventsSnoc(probeBase, probes, probe);
      probes := probes + [probe];
      if probe != was {
        changes := changes + [probe];
        ConnectionChange(true, loadOk, screen);
      }
    }

    /**
     * The start-up part of `createWindows` that touches this state: a silent probe, a
     * `connectionChange` that shows no notification, and the initial Quit-only menu.
     */
    method CreateWindows(probe: bool, loadOk: bool, screen: ScreenSize)
      requires Valid()
      modifies this`connected, this`probeBase, this`probes, this`changes,
               this`shown, this`sent, this`page, this`port1, this`port2, this`nextPort,
               this`closedPorts, this`reminders, this`monitoringTimer, this`nextHandle, this`menu
      ensures Valid()
      ensures connected == probe && changes == []
      ensures shown == old(shown)
      ensures ConnectionChangeEffect(false, loadOk, screen)
      ensures menu == [QUIT_ITEM]
      ensures isMonitoring == old(isMonitoring)
    {
      IsConnected(probe);
      ConnectionChange(false, loadOk, screen);
      menu := [QUIT_ITEM];
    }

    /** The `lock-screen` power event: forwarded to the renderer. */
    method OnLockScreen()
      modifies this`sent
      ensures sent == old(sent) + [LockScreenMsg(true)]
    {
      sent := sent + [LockScreenMsg(true)];
    }

    /** The `unlock-screen` power event: forwarded, then the app relaunches itself. */
    method OnUnlockScreen()
      modifies this`sent, this`relaunchRequested
      ensures sent == old(sent) + [LockScreenMsg(false)]
      ensures relaunchRequested
    {
      sent := sent + [LockScreenMsg(false)];
      relaunchRequested := true;
    }
  }
}
