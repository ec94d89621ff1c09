# Focus timer: a Dafny model of the multi-timer state machine

This project models the timer logic of a browser countdown app (`app.js`).
The app keeps a list of named countdown timers and an id counter at module
level. Its handlers create, start, pause, reset and delete timers. A timer
ticks once a second through `setInterval`. When it reaches zero, an alarm
interval repeats a sound and a vibration until the user dismisses it, and
dismissing silences every timer's alarm. The durable part of each timer
(`id, name, duration, timeLeft`) is saved to local storage on create, reset,
delete and finish, and on a tick that lands on a multiple of ten seconds.
That includes the tick that starting a timer runs at once, so a start saves
when its immediate tick lands on a multiple of ten or finishes the timer.
Pausing and the other ticks change the list without saving it. On reload,
the app adopts the stored timers; with none stored it seeds one five-minute
"Focus Timer" and saves it at once.

Modules:

- `Wrappers`: `Option` and `Result`.
- `Timers`: the timer record, the lookup `findTimer`, the largest id, the
  delete filter, and the set of alarm handles.
- `Persistence`: the saved record, the save projection and the load rebuild.
- `Clock`: `formatTime`, with JavaScript's floor division, sign-keeping
  remainder and `padStart` written out.
- `CreateForm`: the create form's ordered checks and their messages.
- `App`: the class `FocusTimers`, which holds the module-level state and the
  handlers that change it in place.
- `Scenarios`: client methods that drive the handlers. They assert only what
  the contracts guarantee.

Interval handles are abstract tokens. `nextToken` is the id the next
`setInterval` returns. The ghost map `live` holds every interval not yet
cleared, with the job it runs: `TickJob(id)` calls `tick(id)` and
`AlarmJob(id)` repeats the alert. An interval firing is an explicit call:
`Tick(id)` for a tick interval and `RepeatAlert()` for an alarm interval.
The class invariant `Valid()` holds after every handler. It says:

- every issued id is below `nextTimerID`;
- every handle was issued before `nextToken`;
- a handle that is still live runs its own timer's job;
- every live alarm interval belongs to an id already issued, and for an id
  still in the list it is the alarm handle of the timer that lookups find.
  So a listed timer never has more than one live alarm interval
  (`AtMostOneAlarm`).

The code assumes three further invariants, which `Valid()` does not
include because the code itself breaks them:

- a timer holds a tick handle exactly while it is running: pause and finish
  clear the two together (app.js 366-368 and 203-205);
- a timer has at most one live tick interval and at most one live alarm
  interval (the comment at app.js 143);
- `0 <= timeLeft <= duration`: the finishing test `timeLeft <= 0` (app.js
  202) stops the count at zero, and the progress bar (app.js 275-277) reads
  `(duration - timeLeft) / duration` as a share between 0 and 100 per cent.

The behaviours that break them are stated as written, without repair:

- Starting a stopped timer with one second left ticks it to zero at once.
  That tick stops it and starts its alarm. The start handler still installs a
  new tick interval (see the contract of `StartPause`). The timer is then not
  running but holds a live tick handle. When that interval fires, the count
  goes to -1 and the alarm is started again; that firing finishes the timer
  once more and so clears the interval, which the timer still holds
  (`Scenarios.StartAtOneSecond`).
- If the timer is started again before that interval first fires, the
  leaked interval survives the restart. Starting installs a second tick
  interval and holds only the new one, so the timer has two live tick
  intervals and ticks twice a second (`Scenarios.RestartBeforeLeakFires`).
  Pause clears only
  the handle it holds; the leaked interval keeps ticking (see the contract
  of `StartPause`, which promises one tick interval only when none was live
  before). If it is reset in the same window instead, `Refilled` keeps the
  stopped timer's handle, so the interval stays live and the refilled timer
  keeps counting down while it shows as stopped.
- Delete clears only a running timer's tick interval. An alarming timer's
  alarm interval stays live (see `Delete`). `StopAlarm` only reaches
  handles held by timers still in the list (see `StopAlarm`).
- A tick that reaches zero saves twice: `0 % 10 == 0`, and finishing saves
  again (see `Tick`).
- Loading checks no field, so `0 <= timeLeft <= duration` can fail after a
  load (`LoadKeepsOutOfRangeTime`). Duplicate stored ids are also kept;
  lookups then reach the first such timer, and delete removes all of them.

The form's error texts are the code's own ("Please enter a timer name",
...), not shorter paraphrases of them.

## Model

| member | source | states |
|---|---|---|
| `Timers.FindIndex` | app.js:183-185 | A found position is in range and holds a timer with the id (first match and failure are `FindIndexFirst`). |
| `Timers.FindIndexFirst` | app.js:183-185 | No timer before the found position has the id, and the lookup fails exactly when no timer has it. |
| `Timers.FindIndexUpdate` | app.js:183-185 | Replacing a timer by one with the same id leaves every lookup where it was. |
| `Timers.FindIndexAppend` | app.js:183-185 | Appending a timer leaves every successful lookup where it was; the new timer is found only for its own id. |
| `Timers.FindIndexRemoved` | app.js:425 | After the delete filter, the removed id is not found. |
| `Timers.FindIndexRemove` | app.js:425 | After the delete filter, every other id is found exactly when it was before, and finds the same timer. |
| `Timers.MaxId` | app.js:23 | The result is the id of some timer and no timer's id exceeds it. |
| `Timers.RemoveId` | app.js:425 | The filter never lengthens the list; which timers it keeps is `RemoveIdMembers`, and the exact result for a unique id is `RemoveUniqueId`. |
| `Timers.RemoveIdMembers` | app.js:425 | A timer is kept exactly when it was in the list with a different id. |
| `Timers.RemoveAbsentId` | app.js:425 | The filter leaves the list unchanged when no timer has the id. |
| `Timers.RemoveUniqueId` | app.js:425 | With one timer holding the id, the filter cuts out that position and keeps the rest in order. |
| `Timers.AlarmHandles` | app.js:163-168 | A token is in the set exactly when some timer holds it as its alarm handle. |
| `Persistence.Project` | app.js:37-43 | One record per timer, in order, carrying its id, name, duration and time left. |
| `Persistence.LoadTimers` | app.js:54-82 | Nothing stored or unparseable gives `[]`; otherwise one timer per record, with the record's fields, stopped and without handles. |
| `Persistence.SaveThenLoad` | app.js:37-74 | Loading what was saved gives back the same timers in order, stopped and without handles. |
| `Persistence.LoadThenSave` | app.js:37-74 | Saving what was loaded writes back exactly the stored records. |
| `Persistence.LoadKeepsOutOfRangeTime` | app.js:66-74 | A stored time left outside `[0, duration]` is loaded as it is. |
| `Persistence.ProjectIgnoresRuntime` | app.js:37-43 | Changing a timer's run state or handles does not change what is saved. |
| `Clock.FormatTime` | app.js:176-180 | For a non-negative count, the text is digits, a colon and two digits that read back as minutes and seconds, under 60 seconds, adding up to the count. |
| `Clock.NatToStringValue` | app.js:179 | The decimal text of a number reads back as that number. |
| `Clock.JsRemainder` | app.js:178 | JavaScript's `%`: the result differs from the dividend by a multiple of the divisor, is smaller than the divisor in size, and has the dividend's sign. |
| `Clock.JsRemainderZero` | app.js:197 | The tick's `% 10 === 0` test is true exactly when ten divides the count, whatever its sign. |
| `Clock.FormatOneSecondPastZero` | app.js:176-180 | A count of -1 is shown as `-1:-1`. |
| `CreateForm.Validate` | app.js:479-509 | Accepts exactly when no check refuses, with whole minutes in [1, 999]; otherwise reports a refusing check with no earlier check refusing. |
| `CreateForm.Message` | app.js:480-507 | Every refusal has a non-empty message, the code's own text. |
| `CreateForm.MessagesDistinct` | app.js:480-507 | Different refusals show different messages, so the message tells which check refused. |
| `App.Ticked` | app.js:193-205 | A tick takes one second off; reaching zero leaves the timer stopped, without tick handle and alarming. |
| `App.CountdownToZero` | app.js:189-213 | A running timer with `m` seconds left runs through `m - 1` ticks and is finished, stopped and alarming, by the `m`-th. |
| `App.Paused` | app.js:364-369 | Pausing keeps the id, name, duration, count and alarm handle, and leaves the timer stopped without tick handle. |
| `App.Resumed` | app.js:371-376 | Starting refills a finished timer to its duration, keeps an unfinished count, and marks it running; name and both handles are kept. |
| `App.Refilled` | app.js:396-402 | Reset keeps id and name and leaves the full count, stopped, no alarm; a running timer loses its tick handle, a stopped one keeps whatever handle it held. |
| `App.FocusTimers.constructor` | app.js:18-29 | Stored timers are adopted with the counter at the largest id plus one; with none, the list is the saved five-minute "Focus Timer" with id 1. |
| `App.FocusTimers.CreateTimer` | app.js:6-16 | The new timer takes the old counter as id, which no listed timer has; duration and time left are minutes times 60; stopped, no handles; counter plus one. |
| `App.FocusTimers.Save` | app.js:34-51 | The store holds the projection of the current list. |
| `App.FocusTimers.PlayAlertSound` | app.js:90-109 | One sound request unless muted. |
| `App.FocusTimers.VibrateAlert` | app.js:113-120 | One vibration request, muted or not. |
| `App.FocusTimers.RepeatAlert` | app.js:156-159 | Each alarm interval firing requests a sound (unless muted) and a vibration. |
| `App.FocusTimers.ToggleMute` | app.js:438-448 | The mute flag flips. |
| `App.AtMostOneAlarm` | app.js:144-146 | Under the invariant, a listed timer's live alarm intervals are at most its own alarm handle: never more than one. |
| `App.AlarmsOkStart` | app.js:144-158 | Clearing a timer's old alarm interval and installing a fresh one as its handle keeps every alarm owned and leaves the fresh one its only live alarm. |
| `App.AlarmsOkAppend` | app.js:8 | A new timer, whose id no live alarm has, can be appended without breaking alarm ownership. |
| `App.AlarmsOkRemove` | app.js:425 | The delete filter keeps alarm ownership; the removed id's leftover alarms are tied to no timer. |
| `App.FocusTimers.StartAlarm` | app.js:139-160 | Unknown id: nothing changes. Otherwise the timer's old alarm interval is cleared, a sound and a vibration requested, and a new interval installed as its handle; it is then the timer's only live alarm interval. |
| `App.FocusTimers.RingAt` | app.js:144-159 | The same on the timer at a given position. |
| `App.FocusTimers.StopAlarm` | app.js:162-172 | Every timer's alarm handle is dropped and exactly those intervals cleared; alarms of ids not in the list stay live. |
| `App.FocusTimers.SilenceAt` | app.js:164-167 | One step of the loop: the timer at a given position drops its alarm handle and only that interval is cleared. |
| `App.ForeignAlarmsSurvive` | app.js:162-168 | Clearing the alarm handles held by the list leaves every alarm interval of an id not in the list live. |
| `App.FocusTimers.Tick` | app.js:189-214 | Unknown id: nothing changes. Otherwise only that timer changes, as `Ticked`; saves at multiples of ten and again on finishing; finishing clears its tick interval and starts its alarm, which is then the timer's only live alarm interval. |
| `App.FocusTimers.CountDown` | app.js:193 | Only the timer at a given position changes, losing one second, and it stays where lookups find it. |
| `App.FocusTimers.TickAt` | app.js:193-213 | The tick of the timer at a given position, with the same effects. |
| `App.FocusTimers.Finish` | app.js:202-213 | Finishing clears the tick interval, stops and saves the timer, and replaces its alarm interval by one that is its only live alarm. |
| `App.FocusTimers.StartPause` | app.js:360-387 | Running: paused, tick interval cleared, count kept. Stopped: refilled if finished, ticked once, new tick interval installed; from two seconds or more, and when no tick interval for that id was live before, it is running with exactly one tick interval, from one second it is finished yet holds a live tick interval, with exactly its own alarm handle live as an alarm. |
| `App.FocusTimers.PauseAt` | app.js:364-369 | The pause branch on the timer at a given position. |
| `App.FocusTimers.StartAt` | app.js:370-384 | The start branch on the timer at a given position. |
| `App.FocusTimers.Resume` | app.js:372-376 | Refill-if-finished and mark running, keeping lookups in place. |
| `App.FocusTimers.InstallTick` | app.js:383 | A fresh tick interval for the timer is live and held as its handle; what is saved does not change. |
| `App.FocusTimers.Reset` | app.js:390-408 | Unknown id: nothing changes. Otherwise every listed timer's alarm is stopped (a deleted timer's alarm stays live) and the timer refilled and stopped; other timers keep their counts; saved. |
| `App.FocusTimers.ResetAt` | app.js:394-405 | The reset of the timer at a given position, with the same effects. |
| `App.FocusTimers.RefillAt` | app.js:396-402 | With its alarm already silenced, the timer at a given position becomes `Refilled`, and its tick interval is cleared only if it was running. |
| `App.FocusTimers.Delete` | app.js:411-432 | Unknown id or declined confirmation: nothing changes. Otherwise the filtered list, a running timer's tick interval cleared, saved, and its alarm intervals left live. |
| `App.FocusTimers.SubmitCreateForm` | app.js:473-522 | The first refusing check is reported with nothing changed; otherwise a timer of the given minutes with a new id is appended and the list saved. |

## Left out

- Rendering, the timer cards, event delegation, form show/hide and the mute button's icon (app.js 216-357, 440-471, 519-526): presentation only.
- The progress bar's percentage and colour (app.js 274-289): floating-point division.
- `localStorage` and JSON: the store is the parsed record list, and a missing, empty or unparseable entry is `None`. A stored record with missing or non-integer fields is not modelled: the record type has four integer or string fields.
- A failing storage write (`saveTimers`'s catch): `Save` always succeeds.
- Audio playback, vibration support, the screen flash, the page title and the dismiss button's visibility (app.js 86-137, 149-154, 170-171): only sound and vibration requests are counted. Mute suppresses the sound and not the vibration.
- Wall-clock timing of `setInterval` and `setTimeout`: firings are explicit calls, and handles are abstract tokens numbered from 1.
- `trim()` and `Number()` on the form fields: the name arrives trimmed, and the duration arrives as the kind of number it parsed to.
- `confirm()` is a boolean parameter of `Delete`, and `console.log` output is dropped.
- JavaScript numbers are doubles, exact as integers only below 2^53; the model uses exact integers. This matters in three places, reached only through a hand-edited store (the form caps minutes at 999 and ids count up from 1): the id counter (app.js 8 and 24), where from 2^53 on `nextTimerID++` no longer changes the value and two created timers can share an id, while `CreateTimer` and `SubmitCreateForm` always give a fresh one; the tick's decrement (app.js 193), which above 2^53 rounds where `Ticked` subtracts exactly; and `formatTime` (app.js 176-180), whose `toString` switches to exponent notation from 1e21, outside the digits that `FormatTime` promises.
- `parseInt` on the button's id (app.js 347): handlers take the id as an integer.
