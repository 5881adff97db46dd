/**
 * The two processes together: what the content view's tracker reports over the
 * `setMonitoring` channel is what the session controller records, and what the
 * controller's screen-lock messages make the tracker do. Each method runs one
 * message exchange to completion, in the order the messages are sent.
 */
module Bridge {
  import MainProcess
  import Renderer

  /**
   * The page calls `setMonitoringStatus(status)`: the tracker starts or stops and
   * reports `status`, and the controller records it. Afterwards the controller's flag,
   * reminder and tray menu agree with the tracker's capture intervals.
   */
  method SetMonitoringFromPage(m: MainProcess.SessionController, r: Renderer.Tracker,
                               status: bool, granted: bool)
    requires m.Valid() && r.Valid()
    modifies m, r
    ensures m.Valid() && r.Valid()
    ensures m.isMonitoring == status
    ensures m.ReminderArmed() <==> !status
    ensures m.menu == MainProcess.TrayMenu(status)
    ensures status <==> r.TimersOf(Renderer.ScreenshotInterval) != {}
    ensures status <==> r.TimersOf(Renderer.VideoInterval) != {}
  {
    r.SetMonitoringStatus(status, granted);
    m.SetMonitoring(r.ipcSent[|r.ipcSent| - 1]);
  }

  /**
   * The screen locks: the controller sends `lockScreen(true)`, the tracker stops
   * capture and reports `false`, and the controller arms the reminder.
   */
  method ScreenLocked(m: MainProcess.SessionController, r: Renderer.Tracker, granted: bool)
    requires m.Valid() && r.Valid()
    modifies m, r
    ensures m.Valid() && r.Valid()
    ensures m.sent == old(m.sent) + [MainProcess.LockScreenMsg(true)]
    ensures !m.isMonitoring && m.ReminderArmed()
    ensures r.TimersOf(Renderer.ScreenshotInterval) == {} && r.TimersOf(Renderer.VideoInterval) == {}
    ensures r.TimersOf(Renderer.ActivityInterval) == {} && r.listeners == [] && r.stream == 0
  {
    m.OnLockScreen();
    var msg := m.sent[|m.sent| - 1];
    r.OnLockScreen(msg.locked, granted);
    m.SetMonitoring(r.ipcSent[|r.ipcSent| - 1]);
  }

  /**
   * The screen unlocks: the controller sends `lockScreen(false)` and asks for a
   * relaunch; the tracker re-acquires the stream and listeners but re-arms no
   * interval and reports nothing, so the controller's state is left as it was.
   */
  method ScreenUnlocked(m: MainProcess.SessionController, r: Renderer.Tracker, granted: bool)
    requires m.Valid() && r.Valid()
    modifies m, r
    ensures m.Valid() && r.Valid()
    ensures m.relaunchRequested
    ensures m.isMonitoring == old(m.isMonitoring) && m.reminders == old(m.reminders)
    ensures r.Armed() == old(r.Armed()) && r.ipcSent == old(r.ipcSent)
    ensures r.listeners == old(r.listeners) + [Renderer.KeyRelease, Renderer.MouseClick]
  {
    m.OnUnlockScreen();
    var msg := m.sent[|m.sent| - 1];
    r.OnLockScreen(msg.locked, granted);
  }
}
