/**
 * Client code that drives the handlers as the buttons and intervals would,
 * and asserts what the contracts alone guarantee.
 */
module Scenarios {
  import opened Wrappers
  import opened Timers
  import opened Persistence
  import opened CreateForm
  import opened App

  /** First run: the seeded five-minute timer is started (one tick at once) and paused again. */
  method StartThenPauseDefault() {
    var app := new FocusTimers(None);
    assert app.timers == [DefaultTimer];
    app.StartPause(1);
    assert app.timers[0].isRunning && app.timers[0].timeLeft == 299;
    app.StartPause(1);
    assert !app.timers[0].isRunning && app.timers[0].timeLeft == 299;
    assert app.timers[0].tickHandle.None? && TickTokens(app.live, 1) == {};
  }

  /** A running timer with one second left finishes on its next tick and starts alarming. */
  method LastSecond() {
    var app := new FocusTimers(Some([SavedRecord(7, "Tea", 60, 2)]));
    assert app.timers == [Rehydrate(SavedRecord(7, "Tea", 60, 2))] && app.nextTimerID == 8;
    app.StartPause(7);
    assert app.timers[0].timeLeft == 1 && app.timers[0].isRunning;
    app.Tick(7);
    assert app.timers[0].timeLeft == 0 && !app.timers[0].isRunning;
    assert app.timers[0].alarmHandle.Some? && app.timers[0].alarmHandle.value in AlarmTokens(app.live, 7);
    app.StopAlarm();
    assert app.timers[0].alarmHandle.None?;
  }

  /**
   * Starting with one second left: the first tick finishes the timer, and a
   * tick interval is installed anyway. When it fires, the count goes to -1
   * and the alarm is started again.
   */
  method StartAtOneSecond() {
    var app := new FocusTimers(Some([SavedRecord(3, "Egg", 60, 1)]));
    var saves0 := app.saves;
    app.StartPause(3);
    assert app.timers[0].timeLeft == 0 && !app.timers[0].isRunning;
    assert app.timers[0].tickHandle.Some? && !RunningIffTicking(app.timers[0]);
    assert app.saves == saves0 + 2;  // 0 % 10 == 0, and finishing saves again
    var alarm := app.nextToken;
    app.Tick(3);
    assert app.timers[0].timeLeft == -1 && app.timers[0].tickHandle.None?;
    // The alarm starts again, and the first one is cleared rather than stacked.
    assert app.timers[0].alarmHandle == Some(Token(alarm)) && AlarmTokens(app.live, 3) == {Token(alarm)};
    // That firing finished the timer again, and so cleared the interval it still held.
    assert TickTokens(app.live, 3) == {};
  }

  /** Restarting before the leaked tick interval fires leaves two tick intervals live. */
  method RestartBeforeLeakFires() {
    var app := new FocusTimers(Some([SavedRecord(3, "Egg", 60, 1)]));
    app.StartPause(3);
    var leaked := app.timers[0].tickHandle.value;
    assert leaked in TickTokens(app.live, 3);
    app.StartPause(3);
    assert app.timers[0].isRunning && app.timers[0].timeLeft == 59;
    assert leaked in TickTokens(app.live, 3);
    assert app.timers[0].tickHandle.Some? && app.timers[0].tickHandle != Some(leaked);
    assert app.timers[0].tickHandle.value in TickTokens(app.live, 3);
  }

  /** Deleting an alarming timer leaves its alarm interval live, and dismissing no longer reaches it. */
  method DeleteWhileAlarming() {
    var app := new FocusTimers(Some([SavedRecord(4, "Nap", 60, 1), SavedRecord(5, "Run", 120, 120)]));
    app.StartPause(4);
    assert app.timers[0].alarmHandle.Some?;
    var alarm := app.timers[0].alarmHandle.value;
    assert alarm in AlarmTokens(app.live, 4);
    app.Delete(4, true);
    assert app.timers == [Rehydrate(SavedRecord(5, "Run", 120, 120))];
    app.StopAlarm();
    assert alarm in AlarmTokens(app.live, 4);
  }

  /** A declined confirmation and an unknown id both leave the list alone. */
  method DeleteRefused() {
    var app := new FocusTimers(None);
    app.Delete(1, false);
    assert app.timers == [DefaultTimer];
    app.Delete(42, true);
    assert app.timers == [DefaultTimer];
  }

  /** A timer created through the form gets the next id and its full duration in seconds. */
  method CreateThenStart() {
    var app := new FocusTimers(None);
    var r := app.SubmitCreateForm("Tea", Whole(3));
    assert r.Ok? by {
      forall e ensures !Refuses(e, "Tea", Whole(3)) { }
    }
    assert r.value.id == 2 && r.value.duration == 180;
    assert FindIndex(app.timers, 2) == Some(1);
    assert |app.timers| == 2 && app.timers[0] == DefaultTimer && app.timers[1] == r.value;
    assert Project(app.timers)[0] == SavedRecord(1, "Focus Timer", 300, 300);
    assert Project(app.timers)[1] == SavedRecord(2, "Tea", 180, 180);
    assert Project(app.timers) == [SavedRecord(1, "Focus Timer", 300, 300), SavedRecord(2, "Tea", 180, 180)];
    assert app.store == Some(Project(app.timers));
    var checkpoint := app.store;
    app.StartPause(2);
    assert app.timers[1].isRunning && app.timers[1].timeLeft == 179;
    assert app.store == checkpoint;
  }

  /**
   * A reload rebuilds the timers from the last checkpoint: stopped, without
   * handles, and with the count they had when last saved, not the count they
   * had when the page went away; the next id follows the largest loaded one.
   */
  method ReloadFromCheckpoint() {
    var saved := [SavedRecord(1, "Focus Timer", 300, 300), SavedRecord(2, "Tea", 180, 180)];
    var again := new FocusTimers(Some(saved));
    assert |again.timers| == 2 && again.timers[1].id == 2 && !again.timers[1].isRunning;
    assert again.timers[1].timeLeft == 180 && again.nextTimerID == 3;
  }
}
