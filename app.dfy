/**
 * The module-level state of app.js and the handlers that change it: the
 * timer list and id counter, start-up, ticking, start/pause, reset,
 * delete, the create form, and the alarm bookkeeping.
 *
 * The browser is modelled as part of the state: `nextToken` is the id the
 * next `setInterval` returns, and the ghost map `live` holds every interval
 * that has not been cleared, with what it calls when it fires. A firing is
 * an explicit call: a live `TickJob(id)` interval firing is `Tick(id)`, a
 * live `AlarmJob(id)` interval firing is `RepeatAlert()`.
 */
module App {
  import opened Wrappers
  import opened Timers
  import opened Persistence
  import opened CreateForm
  import opened Clock

  /** Live intervals that tick the timer `id`. */
  ghost function TickTokens(live: map<Token, Job>, id: int): set<Token> {
    set k | k in live && live[k] == TickJob(id)
  }

  /** Live intervals that repeat the alarm of the timer `id`. */
  ghost function AlarmTokens(live: map<Token, Job>, id: int): set<Token> {
    set k | k in live && live[k] == AlarmJob(id)
  }

  /**
   * One timer's part of the invariant: its id was issued before `nextId`,
   * its handles before `next`, and a handle that is still live runs that
   * timer's job.
   */
  ghost predicate TimerOk(t: Timer, live: map<Token, Job>, next: nat, nextId: int) {
    t.id < nextId &&
    (t.tickHandle.Some? ==>
       t.tickHandle.value.n < next &&
       (t.tickHandle.value in live ==> live[t.tickHandle.value] == TickJob(t.id))) &&
    (t.alarmHandle.Some? ==>
       t.alarmHandle.value.n < next &&
       (t.alarmHandle.value in live ==> live[t.alarmHandle.value] == AlarmJob(t.id)))
  }

  /** The invariant of the whole state: every live interval was issued, and every timer is `TimerOk`. */
  ghost predicate StateOk(ts: seq<Timer>, live: map<Token, Job>, next: nat, nextId: int) {
    (forall k :: k in live ==> k.n < next) &&
    (forall j :: 0 <= j < |ts| ==> TimerOk(ts[j], live, next, nextId))
  }

  /** From `live` to `live2`, intervals are only cleared, or added with handles not issued before `next`. */
  ghost predicate Grows(live: map<Token, Job>, next: nat, live2: map<Token, Job>, next2: nat) {
    next <= next2 &&
    forall k :: k in live2 ==> (k in live && live2[k] == live[k]) || next <= k.n
  }

  lemma TimerOkGrows(t: Timer, live: map<Token, Job>, next: nat, nextId: int,
                     live2: map<Token, Job>, next2: nat, nextId2: int)
    requires TimerOk(t, live, next, nextId) && Grows(live, next, live2, next2) && nextId <= nextId2
    ensures TimerOk(t, live2, next2, nextId2)
  {
  }

  /** Clearing intervals, issuing new ones and moving the id counter up keep the invariant of every timer. */
  lemma StateOkGrows(ts: seq<Timer>, live: map<Token, Job>, next: nat, nextId: int,
                     live2: map<Token, Job>, next2: nat, nextId2: int)
    requires StateOk(ts, live, next, nextId) && Grows(live, next, live2, next2) && nextId <= nextId2
    requires forall k :: k in live2 ==> k.n < next2
    ensures StateOk(ts, live2, next2, nextId2)
  {
    forall j | 0 <= j < |ts| ensures TimerOk(ts[j], live2, next2, nextId2) {
      TimerOkGrows(ts[j], live, next, nextId, live2, next2, nextId2);
    }
  }

  /** Replacing one timer by one that is itself `TimerOk` keeps the invariant. */
  lemma StateOkReplace(ts: seq<Timer>, live: map<Token, Job>, next: nat, nextId: int, i: nat, u: Timer)
    requires StateOk(ts, live, next, nextId) && i < |ts| && TimerOk(u, live, next, nextId)
    ensures StateOk(ts[i := u], live, next, nextId)
  {
  }

  /**
   * The live alarm interval `k` repeating the alarm of `id`: the id was
   * issued, and if a timer with it is still listed, `k` is the alarm handle
   * of the timer lookups find.
   */
  ghost predicate AlarmOwned(ts: seq<Timer>, k: Token, id: int, nextId: int) {
    id < nextId && (FindIndex(ts, id).Some? ==> ts[FindIndex(ts, id).value].alarmHandle == Some(k))
  }

  /** The alarm part of the invariant: every live alarm interval is owned. */
  ghost predicate AlarmsOk(ts: seq<Timer>, live: map<Token, Job>, nextId: int) {
    forall k :: k in live && live[k].AlarmJob? ==> AlarmOwned(ts, k, live[k].timerId, nextId)
  }

  /** Alarms never stack: a listed timer has no live alarm interval other than its own handle. */
  lemma AtMostOneAlarm(ts: seq<Timer>, live: map<Token, Job>, nextId: int, id: int)
    requires AlarmsOk(ts, live, nextId) && FindIndex(ts, id).Some?
    ensures AlarmTokens(live, id) <= TokensOf(ts[FindIndex(ts, id).value].alarmHandle)
    ensures |AlarmTokens(live, id)| <= 1
  {
    var h := ts[FindIndex(ts, id).value].alarmHandle;
    forall k | k in AlarmTokens(live, id) ensures k in TokensOf(h) {
      assert AlarmOwned(ts, k, live[k].timerId, nextId);
    }
    if h.Some? && h.value in AlarmTokens(live, id) {
      assert AlarmTokens(live, id) == {h.value};
    } else {
      assert AlarmTokens(live, id) == {};
    }
  }

  /** Clearing intervals, adding intervals that are not alarms and moving the id counter up keep every alarm owned. */
  lemma AlarmsOkShrink(ts: seq<Timer>, live: map<Token, Job>, nextId: int, live2: map<Token, Job>, nextId2: int)
    requires AlarmsOk(ts, live, nextId) && nextId <= nextId2
    requires forall k :: k in live2 && live2[k].AlarmJob? ==> k in live && live2[k] == live[k]
    ensures AlarmsOk(ts, live2, nextId2)
  {
    forall k | k in live2 && live2[k].AlarmJob? ensures AlarmOwned(ts, k, live2[k].timerId, nextId2) {
      assert AlarmOwned(ts, k, live[k].timerId, nextId);
    }
  }

  /** Replacing a timer by one with the same id and alarm handle keeps every alarm owned. */
  lemma AlarmsOkReplace(ts: seq<Timer>, live: map<Token, Job>, nextId: int, i: nat, u: Timer)
    requires AlarmsOk(ts, live, nextId) && i < |ts| && u.id == ts[i].id && u.alarmHandle == ts[i].alarmHandle
    ensures AlarmsOk(ts[i := u], live, nextId)
  {
    forall k | k in live && live[k].AlarmJob? ensures AlarmOwned(ts[i := u], k, live[k].timerId, nextId) {
      assert AlarmOwned(ts, k, live[k].timerId, nextId);
      FindIndexUpdate(ts, i, u, live[k].timerId);
    }
  }

  /** Dropping one timer's alarm handle and clearing its interval keeps every alarm owned. */
  lemma AlarmsOkSilence(ts: seq<Timer>, live: map<Token, Job>, nextId: int, i: nat)
    requires AlarmsOk(ts, live, nextId) && i < |ts|
    ensures AlarmsOk(ts[i := ts[i].(alarmHandle := None)], live - TokensOf(ts[i].alarmHandle), nextId)
  {
    var ts2, live2 := ts[i := ts[i].(alarmHandle := None)], live - TokensOf(ts[i].alarmHandle);
    forall k | k in live2 && live2[k].AlarmJob? ensures AlarmOwned(ts2, k, live2[k].timerId, nextId) {
      assert AlarmOwned(ts, k, live[k].timerId, nextId);
      FindIndexUpdate(ts, i, ts2[i], live[k].timerId);
    }
  }

  /**
   * `startAlarm`'s bookkeeping on the timer at `i`: clearing its old alarm
   * interval and installing a fresh one as its handle keeps every alarm
   * owned, and leaves the fresh interval the timer's only one.
   */
  lemma AlarmsOkStart(ts: seq<Timer>, live: map<Token, Job>, nextId: int, i: nat, k: Token)
    requires AlarmsOk(ts, live, nextId) && i < |ts| && FindIndex(ts, ts[i].id) == Some(i)
    requires ts[i].id < nextId && k !in live
    ensures var live2 := (live - TokensOf(ts[i].alarmHandle))[k := AlarmJob(ts[i].id)];
      AlarmsOk(ts[i := ts[i].(alarmHandle := Some(k))], live2, nextId) &&
      AlarmTokens(live2, ts[i].id) == {k}
  {
    var ts2 := ts[i := ts[i].(alarmHandle := Some(k))];
    var live2 := (live - TokensOf(ts[i].alarmHandle))[k := AlarmJob(ts[i].id)];
    forall k' | k' in live2 && live2[k'].AlarmJob? ensures AlarmOwned(ts2, k', live2[k'].timerId, nextId) {
      FindIndexUpdate(ts, i, ts2[i], live2[k'].timerId);
      if k' != k {
        assert AlarmOwned(ts, k', live[k'].timerId, nextId);
      }
    }
    forall k' | k' in AlarmTokens(live2, ts[i].id) ensures k' == k {
    }
  }

  /** Appending a timer with an id no live alarm has keeps every alarm owned. */
  lemma AlarmsOkAppend(ts: seq<Timer>, live: map<Token, Job>, nextId: int, t: Timer, nextId2: int)
    requires AlarmsOk(ts, live, nextId) && nextId <= t.id < nextId2
    ensures AlarmsOk(ts + [t], live, nextId2)
  {
    forall k | k in live && live[k].AlarmJob? ensures AlarmOwned(ts + [t], k, live[k].timerId, nextId2) {
      assert AlarmOwned(ts, k, live[k].timerId, nextId);
      FindIndexAppend(ts, t, live[k].timerId);
    }
  }

  /** Filtering out an id keeps every alarm owned; the removed id's alarms are no longer tied to a timer. */
  lemma AlarmsOkRemove(ts: seq<Timer>, live: map<Token, Job>, nextId: int, id: int)
    requires AlarmsOk(ts, live, nextId)
    ensures AlarmsOk(RemoveId(ts, id), live, nextId)
  {
    forall k | k in live && live[k].AlarmJob? ensures AlarmOwned(RemoveId(ts, id), k, live[k].timerId, nextId) {
      assert AlarmOwned(ts, k, live[k].timerId, nextId);
      if live[k].timerId == id {
        FindIndexRemoved(ts, id);
      } else {
        FindIndexRemove(ts, id, live[k].timerId);
      }
    }
  }

  /**
   * Clearing every alarm handle the list holds leaves alone the alarm
   * intervals of an id no timer in the list has.
   */
  lemma ForeignAlarmsSurvive(ts: seq<Timer>, live: map<Token, Job>, next: nat, nextId: int)
    requires StateOk(ts, live, next, nextId)
    ensures forall id :: FindIndex(ts, id).None? ==> AlarmTokens(live - AlarmHandles(ts), id) == AlarmTokens(live, id)
  {
    forall id | FindIndex(ts, id).None?
      ensures AlarmTokens(live - AlarmHandles(ts), id) == AlarmTokens(live, id)
    {
      FindIndexFirst(ts, id);
      forall k | k in AlarmTokens(live, id)
        ensures k !in AlarmHandles(ts)
      {
      }
    }
  }

  /** Clearing the alarm handle of one more timer extends the cleared prefix by one. */
  lemma SilencePrefix(ts: seq<Timer>, live: map<Token, Job>, i: nat)
    requires i < |ts|
    ensures live - AlarmHandles(ts[..i]) - TokensOf(ts[i].alarmHandle) == live - AlarmHandles(ts[..i + 1])
  {
    assert ts[..i + 1][..i] == ts[..i];
  }

  /**
   * The run flag agrees with the tick handle: pause and finish clear the two
   * together (app.js 366-368, 203-205). Starting from one second breaks it.
   */
  predicate RunningIffTicking(t: Timer) {
    t.isRunning <==> t.tickHandle.Some?
  }

  /** A timer whose countdown has reached zero or gone below. */
  predicate Finished(t: Timer) {
    t.timeLeft <= 0
  }

  /**
   * The timer record after one tick: one second less, and if that reaches
   * zero, stopped, without tick handle, and alarming with handle `alarm`.
   */
  function Ticked(t: Timer, alarm: Token): (u: Timer)
    ensures u.id == t.id && u.name == t.name && u.duration == t.duration
    ensures u.timeLeft == t.timeLeft - 1
    ensures Finished(u) ==> !u.isRunning && u.tickHandle.None? && u.alarmHandle == Some(alarm)
    ensures !Finished(u) ==> u == t.(timeLeft := t.timeLeft - 1)
  {
    var u := t.(timeLeft := t.timeLeft - 1);
    if u.timeLeft <= 0 then u.(tickHandle := None, isRunning := false, alarmHandle := Some(alarm)) else u
  }

  /** The record after `n` ticks, with `alarm` as the alarm handle should one of them finish it. */
  function TickedTimes(t: Timer, n: nat, alarm: Token): Timer {
    if n == 0 then t else Ticked(TickedTimes(t, n - 1, alarm), alarm)
  }

  /**
   * A running timer with `m` seconds left stays running through its first
   * `m - 1` ticks, losing one second each, and its `m`-th tick finishes it
   * at zero: stopped, without tick handle, alarming.
   */
  lemma {:induction false} CountdownToZero(t: Timer, m: nat, n: nat, alarm: Token)
    requires t.isRunning && t.timeLeft == m && n <= m
    ensures TickedTimes(t, n, alarm).timeLeft == m - n
    ensures n < m ==> TickedTimes(t, n, alarm).isRunning
    ensures n == m >= 1 ==>
      var u := TickedTimes(t, n, alarm);
      !u.isRunning && u.tickHandle.None? && u.alarmHandle == Some(alarm)
  {
    if n > 0 {
      CountdownToZero(t, m, n - 1, alarm);
    }
  }

  /** The live intervals after that tick: a finishing tick clears its tick and old alarm intervals and adds `alarm`. */
  ghost function TickedLive(live: map<Token, Job>, t: Timer, alarm: Token): map<Token, Job> {
    if t.timeLeft - 1 <= 0 then
      (live - TokensOf(t.tickHandle) - TokensOf(t.alarmHandle))[alarm := AlarmJob(t.id)]
    else live
  }

  /** A timer after the pause branch of the start/pause button. */
  function Paused(t: Timer): (u: Timer)
    ensures u.timeLeft == t.timeLeft && !u.isRunning && u.tickHandle.None?
    ensures u.id == t.id && u.name == t.name && u.duration == t.duration && u.alarmHandle == t.alarmHandle
  {
    t.(isRunning := false, tickHandle := None)
  }

  /** A stopped timer as the start branch sets it up before its first tick: refilled if finished, running. */
  function Resumed(t: Timer): (u: Timer)
    ensures u.isRunning && u.id == t.id && u.duration == t.duration
    ensures u.name == t.name && u.tickHandle == t.tickHandle && u.alarmHandle == t.alarmHandle
    ensures Finished(t) ==> u.timeLeft == t.duration
    ensures !Finished(t) ==> u.timeLeft == t.timeLeft
  {
    t.(timeLeft := if t.timeLeft <= 0 then t.duration else t.timeLeft, isRunning := true)
  }

  /** A timer after reset: full count, stopped, no alarm; a tick handle is cleared only if it was running. */
  function Refilled(t: Timer): (u: Timer)
    ensures u.timeLeft == u.duration == t.duration && !u.isRunning && u.alarmHandle.None?
    ensures u.id == t.id && u.name == t.name
    ensures t.isRunning ==> u.tickHandle.None?
    ensures !t.isRunning ==> u.tickHandle == t.tickHandle
    ensures RunningIffTicking(t) ==> u.tickHandle.None?
  {
    t.(timeLeft := t.duration, isRunning := false, alarmHandle := None,
       tickHandle := if t.isRunning then None else t.tickHandle)
  }

  /** The timer seeded on first run. */
  const DefaultTimer := Timer(1, "Focus Timer", 300, 300, false, None, None)

  class FocusTimers {
    var timers: seq<Timer>
    var nextTimerID: int
    var isMuted: bool
    /** The parsed 'focus-timers' storage entry; `None` when missing or unparseable. */
    var store: Option<seq<SavedRecord>>
    /** The id the browser's next `setInterval` returns. */
    var nextToken: nat
    /** The intervals not yet cleared, and what each calls. */
    ghost var live: map<Token, Job>
    /** Number of `saveTimers` calls. */
    ghost var saves: nat
    /** Number of alert sounds requested (muted requests are not counted). */
    ghost var sounds: nat
    /** Number of vibrations requested. */
    ghost var vibrations: nat

    ghost predicate Valid()
      reads this
    {
      StateOk(timers, live, nextToken, nextTimerID) && AlarmsOk(timers, live, nextTimerID)
    }

    /**
     * Start-up: adopt the stored timers and continue ids after the largest,
     * or, with nothing stored, seed one five-minute timer and save it.
     */
    constructor (stored: Option<seq<SavedRecord>>)
      ensures Valid()
      ensures live == map[] && !isMuted && sounds == 0 && vibrations == 0
      ensures |LoadTimers(stored)| > 0 ==>
        timers == LoadTimers(stored) && nextTimerID == MaxId(timers) + 1 && store == stored && saves == 0
      ensures |LoadTimers(stored)| == 0 ==>
        timers == [DefaultTimer] && nextTimerID == 2 && store == Some(Project(timers)) && saves == 1
    {
      timers := [];
      nextTimerID := 1;
      isMuted := false;
      store := stored;
      nextToken := 1;
      live := map[];
      saves, sounds, vibrations := 0, 0, 0;
      new;
      var loaded := LoadTimers(store);
      if |loaded| > 0 {
        timers := loaded;
        nextTimerID := MaxId(timers) + 1;
      } else {
        var t := CreateTimer("Focus Timer", 5);
        timers := timers + [t];
        Save();
      }
    }

    /** `createTimer`: a stopped timer of `minutes` minutes with the next id; the counter moves on. */
    method CreateTimer(name: string, minutes: int) returns (t: Timer)
      requires Valid()
      modifies this`nextTimerID
      ensures Valid()
      ensures t.id == old(nextTimerID) && nextTimerID == old(nextTimerID) + 1
      ensures t.name == name && t.duration == minutes * 60 && t.timeLeft == t.duration
      ensures !t.isRunning && t.tickHandle.None? && t.alarmHandle.None?
      ensures forall j :: 0 <= j < |timers| ==> timers[j].id < t.id
    {
      t := Timer(nextTimerID, name, minutes * 60, minutes * 60, false, None, None);
      AlarmsOkShrink(timers, live, nextTimerID, live, nextTimerID + 1);
      nextTimerID := nextTimerID + 1;
    }

    /** `saveTimers`: the store now holds the durable part of every timer. */
    method Save()
      modifies this`store, this`saves
      ensures store == Some(Project(timers)) && saves == old(saves) + 1
    {
      store := Some(Project(timers));
      saves := saves + 1;
    }

    /** The browser's `setInterval`: a fresh handle, now live. */
    method SetInterval(job: Job) returns (k: Token)
      requires forall k :: k in live ==> k.n < nextToken
      modifies this`nextToken, this`live
      ensures k == Token(old(nextToken)) && k !in old(live)
      ensures nextToken == old(nextToken) + 1 && live == old(live)[k := job]
    {
      k := Token(nextToken);
      nextToken := nextToken + 1;
      live := live[k := job];
    }

    /** The browser's `clearInterval`; clearing `null` does nothing. */
    method ClearInterval(h: Option<Token>)
      modifies this`live
      ensures live == old(live) - TokensOf(h)
    {
      live := live - TokensOf(h);
    }

    /** `playAlertSound`: one sound request, unless muted. */
    method PlayAlertSound()
      modifies this`sounds
      ensures sounds == old(sounds) + (if isMuted then 0 else 1)
    {
      if !isMuted {
        sounds := sounds + 1;
      }
    }

    /** `vibrateAlert`: one vibration request; mute does not affect it. */
    method VibrateAlert()
      modifies this`vibrations
      ensures vibrations == old(vibrations) + 1
    {
      vibrations := vibrations + 1;
    }

    /** The alarm interval's callback, every two seconds while it is live. */
    method RepeatAlert()
      modifies this`sounds, this`vibrations
      ensures sounds == old(sounds) + (if isMuted then 0 else 1) && vibrations == old(vibrations) + 1
    {
      PlayAlertSound();
      VibrateAlert();
    }

    /** The mute button. */
    method ToggleMute()
      modifies this`isMuted
      ensures isMuted == !old(isMuted)
    {
      isMuted := !isMuted;
    }

    /**
     * `startAlarm`: the timer's old alarm interval, if any, is cleared before
     * the new one is installed, so alarms for one timer never stack.
     */
    method StartAlarm(id: int)
      requires Valid()
      modifies this`timers, this`live, this`nextToken, this`sounds, this`vibrations
      ensures Valid()
      ensures FindIndex(old(timers), id).None? ==> unchanged(this)
      ensures FindIndex(old(timers), id).Some? ==>
        var i := FindIndex(old(timers), id).value;
        var k := Token(old(nextToken));
        timers == old(timers)[i := old(timers)[i].(alarmHandle := Some(k))] &&
        live == (old(live) - TokensOf(old(timers)[i].alarmHandle))[k := AlarmJob(id)] &&
        nextToken == old(nextToken) + 1 &&
        sounds == old(sounds) + (if isMuted then 0 else 1) && vibrations == old(vibrations) + 1
      ensures FindIndex(old(timers), id).Some? ==> AlarmTokens(live, id) == {Token(old(nextToken))}
    {
      var found := FindIndex(timers, id);
      if found.None? {
        return;
      }
      RingAt(found.value);
    }

    /** `startAlarm` on the timer at position `i`, the first with its id. */
    method RingAt(i: nat)
      requires Valid() && i < |timers| && FindIndex(timers, timers[i].id) == Some(i)
      modifies this`timers, this`live, this`nextToken, this`sounds, this`vibrations
      ensures Valid()
      ensures var k := Token(old(nextToken));
        timers == old(timers)[i := old(timers)[i].(alarmHandle := Some(k))] &&
        live == (old(live) - TokensOf(old(timers)[i].alarmHandle))[k := AlarmJob(old(timers)[i].id)] &&
        nextToken == old(nextToken) + 1
      ensures AlarmTokens(live, old(timers)[i].id) == {Token(old(nextToken))}
      ensures sounds == old(sounds) + (if isMuted then 0 else 1) && vibrations == old(vibrations) + 1
    {
      var t := timers[i];
      AlarmsOkStart(timers, live, nextTimerID, i, Token(nextToken));
      ClearInterval(t.alarmHandle);
      PlayAlertSound();
      VibrateAlert();
      var k := SetInterval(AlarmJob(t.id));
      timers := timers[i := t.(alarmHandle := Some(k))];
    }

    /**
     * `stopAlarm`: every timer's alarm interval is cleared and its handle
     * dropped. Intervals no timer in the list holds are out of its reach.
     */
    method StopAlarm()
      requires Valid()
      modifies this`timers, this`live
      ensures Valid()
      ensures |timers| == |old(timers)|
      ensures forall j :: 0 <= j < |timers| ==> timers[j] == old(timers)[j].(alarmHandle := None)
      ensures live == old(live) - AlarmHandles(old(timers))
      ensures forall id :: FindIndex(old(timers), id).None? ==> AlarmTokens(live, id) == AlarmTokens(old(live), id)
    {
      ghost var ts0, live0 := timers, live;
      var i := 0;
      while i < |timers|
        invariant 0 <= i <= |timers| == |ts0|
        invariant forall j :: 0 <= j < i ==> timers[j] == ts0[j].(alarmHandle := None)
        invariant forall j :: i <= j < |timers| ==> timers[j] == ts0[j]
        invariant live == live0 - AlarmHandles(ts0[..i])
        invariant StateOk(timers, live, nextToken, nextTimerID) && AlarmsOk(timers, live, nextTimerID)
      {
        SilencePrefix(ts0, live0, i);
        SilenceAt(i);
        i := i + 1;
      }
      assert ts0[..i] == ts0;
      ForeignAlarmsSurvive(ts0, live0, nextToken, nextTimerID);
    }

    /** One step of `stopAlarm`: the timer at `i` drops its alarm handle, and its interval is cleared. */
    method SilenceAt(i: nat)
      requires Valid() && i < |timers|
      modifies this`timers, this`live
      ensures Valid()
      ensures timers == old(timers)[i := old(timers)[i].(alarmHandle := None)]
      ensures live == old(live) - TokensOf(old(timers)[i].alarmHandle)
    {
      var t := timers[i];
      if t.alarmHandle.Some? {
        ghost var live0 := live;
        AlarmsOkSilence(timers, live, nextTimerID, i);
        ClearInterval(t.alarmHandle);
        StateOkGrows(timers, live0, nextToken, nextTimerID, live, nextToken, nextTimerID);
        StateOkReplace(timers, live, nextToken, nextTimerID, i, t.(alarmHandle := None));
        timers := timers[i := t.(alarmHandle := None)];
      }
    }

    /**
     * `tick`: the timer with this id loses one second; the store is written
     * when the new count is a multiple of ten and again when it reaches zero,
     * and reaching zero stops the timer and starts its alarm. Other timers do
     * not change; an unknown id changes nothing.
     */
    method Tick(id: int)
      requires Valid()
      modifies this`timers, this`live, this`nextToken, this`store, this`saves, this`sounds, this`vibrations
      ensures Valid()
      ensures FindIndex(old(timers), id).None? ==> unchanged(this)
      ensures FindIndex(old(timers), id).Some? ==>
        var i := FindIndex(old(timers), id).value;
        timers == old(timers)[i := Ticked(old(timers)[i], Token(old(nextToken)))]
      ensures FindIndex(old(timers), id).Some? ==>
        var t := old(timers)[FindIndex(old(timers), id).value];
        live == TickedLive(old(live), t, Token(old(nextToken))) &&
        nextToken == old(nextToken) + (if t.timeLeft - 1 <= 0 then 1 else 0) &&
        (t.timeLeft - 1 <= 0 ==> AlarmTokens(live, id) == {Token(old(nextToken))})
      ensures FindIndex(old(timers), id).Some? ==>
        var left := old(timers)[FindIndex(old(timers), id).value].timeLeft - 1;
        saves == old(saves) + (if left % 10 == 0 then 1 else 0) + (if left <= 0 then 1 else 0) &&
        store == (if left % 10 == 0 || left <= 0 then Some(Project(timers)) else old(store))
      ensures FindIndex(old(timers), id).Some? ==>
        var left := old(timers)[FindIndex(old(timers), id).value].timeLeft - 1;
        sounds == old(sounds) + (if left <= 0 && !isMuted then 1 else 0) &&
        vibrations == old(vibrations) + (if left <= 0 then 1 else 0)
    {
      var found := FindIndex(timers, id);
      if found.None? {
        return;
      }
      TickAt(found.value);
    }

    /** `tick` on the timer at position `i`, the first with its id. */
    method TickAt(i: nat)
      requires Valid() && i < |timers| && FindIndex(timers, timers[i].id) == Some(i)
      modifies this`timers, this`live, this`nextToken, this`store, this`saves, this`sounds, this`vibrations
      ensures Valid()
      ensures timers == old(timers)[i := Ticked(old(timers)[i], Token(old(nextToken)))]
      ensures live == TickedLive(old(live), old(timers)[i], Token(old(nextToken)))
      ensures nextToken == old(nextToken) + (if old(timers)[i].timeLeft - 1 <= 0 then 1 else 0)
      ensures old(timers)[i].timeLeft - 1 <= 0 ==> AlarmTokens(live, old(timers)[i].id) == {Token(old(nextToken))}
      ensures var left := old(timers)[i].timeLeft - 1;
        saves == old(saves) + (if left % 10 == 0 then 1 else 0) + (if left <= 0 then 1 else 0) &&
        store == (if left % 10 == 0 || left <= 0 then Some(Project(timers)) else old(store))
      ensures var left := old(timers)[i].timeLeft - 1;
        sounds == old(sounds) + (if left <= 0 && !isMuted then 1 else 0) &&
        vibrations == old(vibrations) + (if left <= 0 then 1 else 0)
    {
      CountDown(i);
      var t := timers[i];
      JsRemainderZero(t.timeLeft, 10);
      if JsRemainder(t.timeLeft, 10) == 0 {
        Save();
      }
      if t.timeLeft <= 0 {
        Finish(i);
      }
    }

    /** `timer.timeLeft = timer.timeLeft - 1` on the timer at position `i`. */
    method CountDown(i: nat)
      requires Valid() && i < |timers| && FindIndex(timers, timers[i].id) == Some(i)
      modifies this`timers
      ensures timers == old(timers)[i := old(timers)[i].(timeLeft := old(timers)[i].timeLeft - 1)]
      ensures Valid() && FindIndex(timers, timers[i].id) == Some(i)
    {
      var t := timers[i];
      t := t.(timeLeft := t.timeLeft - 1);
      StateOkReplace(timers, live, nextToken, nextTimerID, i, t);
      AlarmsOkReplace(timers, live, nextTimerID, i, t);
      FindIndexUpdate(timers, i, t, t.id);
      timers := timers[i := t];
    }

    /**
     * The second half of `tick` once the count is down to zero: the tick
     * interval is cleared, the timer stopped and saved, and its alarm started.
     */
    method Finish(i: nat)
      requires Valid() && i < |timers| && FindIndex(timers, timers[i].id) == Some(i)
      modifies this`timers, this`live, this`nextToken, this`store, this`saves, this`sounds, this`vibrations
      ensures Valid()
      ensures timers == old(timers)[i := old(timers)[i].(isRunning := false, tickHandle := None,
                                                         alarmHandle := Some(Token(old(nextToken))))]
      ensures live == (old(live) - TokensOf(old(timers)[i].tickHandle) - TokensOf(old(timers)[i].alarmHandle))
                        [Token(old(nextToken)) := AlarmJob(old(timers)[i].id)]
      ensures nextToken == old(nextToken) + 1
      ensures AlarmTokens(live, old(timers)[i].id) == {Token(old(nextToken))}
      ensures store == Some(Project(timers)) && saves == old(saves) + 1
      ensures sounds == old(sounds) + (if isMuted then 0 else 1) && vibrations == old(vibrations) + 1
    {
      var id := timers[i].id;
      FindIndexUpdate(timers, i, Paused(timers[i]), id);
      PauseAt(i);
      Save();
      ghost var saved := timers;
      StartAlarm(id);
      ProjectIgnoresRuntime(saved, i, timers[i]);
    }

    /**
     * `handleStartPause`: a running timer is paused; a stopped one is started.
     * An unknown id changes nothing.
     */
    method StartPause(id: int)
      requires Valid()
      modifies this`timers, this`live, this`nextToken, this`store, this`saves, this`sounds, this`vibrations
      ensures Valid()
      ensures FindIndex(old(timers), id).None? ==> unchanged(this)
      ensures FindIndex(old(timers), id).Some? && old(timers)[FindIndex(old(timers), id).value].isRunning ==>
        var i := FindIndex(old(timers), id).value;
        timers == old(timers)[i := Paused(old(timers)[i])] &&
        live == old(live) - TokensOf(old(timers)[i].tickHandle) &&
        nextToken == old(nextToken) && store == old(store) && saves == old(saves) &&
        sounds == old(sounds) && vibrations == old(vibrations)
      ensures FindIndex(old(timers), id).Some? && !old(timers)[FindIndex(old(timers), id).value].isRunning ==>
        var i := FindIndex(old(timers), id).value;
        var begin := Resumed(old(timers)[i]);
        var k := Token(old(nextToken) + (if begin.timeLeft - 1 <= 0 then 1 else 0));
        timers == old(timers)[i := Ticked(begin, Token(old(nextToken))).(tickHandle := Some(k))] &&
        live == TickedLive(old(live), begin, Token(old(nextToken)))[k := TickJob(id)] &&
        nextToken == k.n + 1
      ensures FindIndex(old(timers), id).Some? && !old(timers)[FindIndex(old(timers), id).value].isRunning ==>
        var left := Resumed(old(timers)[FindIndex(old(timers), id).value]).timeLeft - 1;
        saves == old(saves) + (if left % 10 == 0 then 1 else 0) + (if left <= 0 then 1 else 0) &&
        store == (if left % 10 == 0 || left <= 0 then Some(Project(timers)) else old(store)) &&
        sounds == old(sounds) + (if left <= 0 && !isMuted then 1 else 0) &&
        vibrations == old(vibrations) + (if left <= 0 then 1 else 0)
      ensures FindIndex(old(timers), id).Some? && !old(timers)[FindIndex(old(timers), id).value].isRunning ==>
        var i := FindIndex(old(timers), id).value;
        var begin := Resumed(old(timers)[i]);
        (begin.timeLeft >= 2 ==> timers[i].isRunning && timers[i].timeLeft == begin.timeLeft - 1) &&
        (begin.timeLeft >= 2 && TickTokens(old(live), id) == {} ==>
           RunningIffTicking(timers[i]) && TickTokens(live, id) == TokensOf(timers[i].tickHandle)) &&
        (begin.timeLeft == 1 ==>
           timers[i].timeLeft == 0 && !timers[i].isRunning && timers[i].tickHandle.Some? &&
           timers[i].tickHandle.value in TickTokens(live, id) && timers[i].alarmHandle.Some? &&
           AlarmTokens(live, id) == TokensOf(timers[i].alarmHandle))
    {
      var found := FindIndex(timers, id);
      if found.None? {
        return;
      }
      if timers[found.value].isRunning {
        PauseAt(found.value);
      } else {
        StartAt(found.value);
      }
    }

    /**
     * The pause branch: the tick interval is cleared and the timer stopped;
     * its count stays. Finishing begins with the same three steps.
     */
    method PauseAt(i: nat)
      requires Valid() && i < |timers|
      modifies this`timers, this`live
      ensures Valid()
      ensures timers == old(timers)[i := Paused(old(timers)[i])]
      ensures live == old(live) - TokensOf(old(timers)[i].tickHandle)
    {
      var t := timers[i];
      ghost var live0 := live;
      ClearInterval(t.tickHandle);
      StateOkGrows(timers, live0, nextToken, nextTimerID, live, nextToken, nextTimerID);
      AlarmsOkShrink(timers, live0, nextTimerID, live, nextTimerID);
      StateOkReplace(timers, live, nextToken, nextTimerID, i, Paused(t));
      AlarmsOkReplace(timers, live, nextTimerID, i, Paused(t));
      timers := timers[i := t.(tickHandle := None, isRunning := false)];
    }

    /**
     * The start branch: a finished timer is refilled, the timer is marked
     * running and ticked once at once, and a new tick interval is installed,
     * even when that first tick has finished the timer.
     */
    method StartAt(i: nat)
      requires Valid() && i < |timers| && FindIndex(timers, timers[i].id) == Some(i)
      modifies this`timers, this`live, this`nextToken, this`store, this`saves, this`sounds, this`vibrations
      ensures Valid()
      ensures var begin := Resumed(old(timers)[i]);
        var k := Token(old(nextToken) + (if begin.timeLeft - 1 <= 0 then 1 else 0));
        timers == old(timers)[i := Ticked(begin, Token(old(nextToken))).(tickHandle := Some(k))]
      ensures var begin := Resumed(old(timers)[i]);
        var k := Token(old(nextToken) + (if begin.timeLeft - 1 <= 0 then 1 else 0));
        live == TickedLive(old(live), begin, Token(old(nextToken)))[k := TickJob(begin.id)] &&
        nextToken == k.n + 1
      ensures Resumed(old(timers)[i]).timeLeft - 1 <= 0 ==> AlarmTokens(live, old(timers)[i].id) == {Token(old(nextToken))}
      ensures var left := Resumed(old(timers)[i]).timeLeft - 1;
        saves == old(saves) + (if left % 10 == 0 then 1 else 0) + (if left <= 0 then 1 else 0) &&
        store == (if left % 10 == 0 || left <= 0 then Some(Project(timers)) else old(store)) &&
        sounds == old(sounds) + (if left <= 0 && !isMuted then 1 else 0) &&
        vibrations == old(vibrations) + (if left <= 0 then 1 else 0)
    {
      ghost var t := Resumed(timers[i]);
      Resume(i);
      ghost var alarm := Token(nextToken);
      TickAt(i);
      ghost var ticked, k, live1 := timers, Token(nextToken), live;
      assert ticked == old(timers)[i := Ticked(t, alarm)];
      assert live1 == TickedLive(old(live), t, alarm);
      InstallTick(i);
      assert live == live1[k := TickJob(t.id)];
      assert AlarmTokens(live, t.id) == AlarmTokens(live1, t.id);
      assert timers == old(timers)[i := Ticked(t, alarm).(tickHandle := Some(k))];
    }

    /** The start branch before its first tick: refill a finished timer and mark it running. */
    method Resume(i: nat)
      requires Valid() && i < |timers| && FindIndex(timers, timers[i].id) == Some(i)
      modifies this`timers
      ensures Valid()
      ensures timers == old(timers)[i := Resumed(old(timers)[i])]
      ensures FindIndex(timers, timers[i].id) == Some(i)
    {
      var t := timers[i];
      if t.timeLeft <= 0 {
        t := t.(timeLeft := t.duration);
      }
      t := t.(isRunning := true);
      StateOkReplace(timers, live, nextToken, nextTimerID, i, t);
      AlarmsOkReplace(timers, live, nextTimerID, i, t);
      FindIndexUpdate(timers, i, t, t.id);
      timers := timers[i := t];
    }

    /** `timer.timerID = setInterval(() => tick(timer.id), 1000)` for the timer at position `i`. */
    method InstallTick(i: nat)
      requires Valid() && i < |timers|
      modifies this`timers, this`live, this`nextToken
      ensures Valid()
      ensures timers == old(timers)[i := old(timers)[i].(tickHandle := Some(Token(old(nextToken))))]
      ensures live == old(live)[Token(old(nextToken)) := TickJob(old(timers)[i].id)]
      ensures nextToken == old(nextToken) + 1
      ensures Project(timers) == Project(old(timers))
    {
      ghost var live0, next0 := live, nextToken;
      var k := SetInterval(TickJob(timers[i].id));
      StateOkGrows(timers, live0, next0, nextTimerID, live, nextToken, nextTimerID);
      var u := timers[i].(tickHandle := Some(k));
      AlarmsOkShrink(timers, live0, nextTimerID, live, nextTimerID);
      StateOkReplace(timers, live, nextToken, nextTimerID, i, u);
      AlarmsOkReplace(timers, live, nextTimerID, i, u);
      ProjectIgnoresRuntime(timers, i, u);
      timers := timers[i := u];
    }

    /**
     * `handleReset`: every alarm is stopped, the timer's tick interval is
     * cleared if it was running, and it is refilled, stopped; then saved.
     * Other timers lose only their alarm handles. An unknown id changes nothing.
     */
    method Reset(id: int)
      requires Valid()
      modifies this`timers, this`live, this`store, this`saves
      ensures Valid()
      ensures FindIndex(old(timers), id).None? ==> unchanged(this)
      ensures FindIndex(old(timers), id).Some? ==>
        var i := FindIndex(old(timers), id).value;
        var t := old(timers)[i];
        |timers| == |old(timers)| &&
        (forall j :: 0 <= j < |timers| && j != i ==> timers[j] == old(timers)[j].(alarmHandle := None)) &&
        timers[i] == Refilled(t) &&
        live == old(live) - AlarmHandles(old(timers)) - (if t.isRunning then TokensOf(t.tickHandle) else {}) &&
        store == Some(Project(timers)) && saves == old(saves) + 1
    {
      var found := FindIndex(timers, id);
      if found.None? {
        return;
      }
      ResetAt(found.value);
    }

    method ResetAt(i: nat)
      requires Valid() && i < |timers|
      modifies this`timers, this`live, this`store, this`saves
      ensures Valid()
      ensures |timers| == |old(timers)|
      ensures forall j :: 0 <= j < |timers| && j != i ==> timers[j] == old(timers)[j].(alarmHandle := None)
      ensures timers[i] == Refilled(old(timers)[i])
      ensures live == old(live) - AlarmHandles(old(timers)) -
                      (if old(timers)[i].isRunning then TokensOf(old(timers)[i].tickHandle) else {})
      ensures store == Some(Project(timers)) && saves == old(saves) + 1
    {
      StopAlarm();
      assert timers[i] == old(timers)[i].(alarmHandle := None);
      RefillAt(i);
      Save();
    }

    /** The reset of one timer whose alarm is already silenced: its tick is cleared if it runs. */
    method RefillAt(i: nat)
      requires Valid() && i < |timers| && timers[i].alarmHandle.None?
      modifies this`timers, this`live
      ensures Valid()
      ensures timers == old(timers)[i := Refilled(old(timers)[i])]
      ensures live == old(live) - (if old(timers)[i].isRunning then TokensOf(old(timers)[i].tickHandle) else {})
    {
      var t := timers[i];
      if t.isRunning {
        ghost var live0 := live;
        ClearInterval(t.tickHandle);
        StateOkGrows(timers, live0, nextToken, nextTimerID, live, nextToken, nextTimerID);
        AlarmsOkShrink(timers, live0, nextTimerID, live, nextTimerID);
        t := t.(tickHandle := None, isRunning := false);
      }
      t := t.(timeLeft := t.duration);
      StateOkReplace(timers, live, nextToken, nextTimerID, i, t);
      AlarmsOkReplace(timers, live, nextTimerID, i, t);
      timers := timers[i := t];
    }

    /**
     * `handleDelete` with the user's answer to the confirmation: every timer
     * with this id leaves the list, the others keep their order. Only a
     * running timer's tick interval is cleared; its alarm interval stays live
     * with no timer left to hold it.
     */
    method Delete(id: int, confirmed: bool)
      requires Valid()
      modifies this`timers, this`live, this`store, this`saves
      ensures Valid()
      ensures FindIndex(old(timers), id).None? || !confirmed ==> unchanged(this)
      ensures FindIndex(old(timers), id).Some? && confirmed ==>
        var t := old(timers)[FindIndex(old(timers), id).value];
        timers == RemoveId(old(timers), id) &&
        live == old(live) - (if t.isRunning then TokensOf(t.tickHandle) else {}) &&
        store == Some(Project(timers)) && saves == old(saves) + 1
      ensures FindIndex(old(timers), id).Some? && confirmed ==>
        FindIndex(timers, id).None? && AlarmTokens(live, id) == AlarmTokens(old(live), id)
    {
      var found := FindIndex(timers, id);
      if found.None? || !confirmed {
        return;
      }
      var t := timers[found.value];
      if t.isRunning {
        ghost var live0 := live;
        ClearInterval(t.tickHandle);
        AlarmsOkShrink(timers, live0, nextTimerID, live, nextTimerID);
      }
      RemoveIdMembers(timers, id);
      AlarmsOkRemove(timers, live, nextTimerID, id);
      timers := RemoveId(timers, id);
      Save();
    }

    /**
     * The form's Create button: the checks run in order and the first that
     * refuses is reported with nothing changed; otherwise a new timer is
     * appended and the list saved.
     */
    method SubmitCreateForm(name: string, d: DurationInput) returns (r: Result<Timer, FormError>)
      requires Valid()
      modifies this`timers, this`nextTimerID, this`store, this`saves
      ensures Valid()
      ensures r.Err? ==> unchanged(this)
      ensures r.Err? ==> Refuses(r.error, name, d) && forall e :: Rank(e) < Rank(r.error) ==> !Refuses(e, name, d)
      ensures r.Ok? <==> forall e :: !Refuses(e, name, d)
      ensures r.Ok? ==>
        d.Whole? && 1 <= d.minutes <= 999 &&
        r.value == Timer(old(nextTimerID), name, d.minutes * 60, d.minutes * 60, false, None, None) &&
        timers == old(timers) + [r.value] && nextTimerID == old(nextTimerID) + 1 &&
        store == Some(Project(timers)) && saves == old(saves) + 1
      ensures r.Ok? ==> forall j :: 0 <= j < |old(timers)| ==> old(timers)[j].id != r.value.id
    {
      var checked := Validate(name, d);
      if checked.Err? {
        return Err(checked.error);
      }
      var t := CreateTimer(name, checked.value);
      AlarmsOkAppend(timers, live, t.id, t, nextTimerID);
      timers := timers + [t];
      Save();
      r := Ok(t);
    }
  }
}
