/**
 * The durable part of a timer and the two projections between the timer
 * list and the stored record list (`saveTimers`, `loadTimers`). The stored
 * value is the parsed content of the 'focus-timers' storage entry: `None`
 * when the entry is missing, empty or does not parse.
 */
module Persistence {
  import opened Wrappers
  import opened Timers

  /** What `saveTimers` keeps of a timer; the run state and both handles are dropped. */
  datatype SavedRecord = SavedRecord(id: int, name: string, duration: int, timeLeft: int)

  function Snapshot(t: Timer): SavedRecord {
    SavedRecord(t.id, t.name, t.duration, t.timeLeft)
  }

  /** A stored record rebuilt as a stopped timer with no handles, fields taken as stored. */
  function Rehydrate(s: SavedRecord): Timer {
    Timer(s.id, s.name, s.duration, s.timeLeft, false, None, None)
  }

  /** The record list `saveTimers` writes for the timer list `ts`. */
  function Project(ts: seq<Timer>): (r: seq<SavedRecord>)
    ensures |r| == |ts|
    ensures forall i :: 0 <= i < |ts| ==> r[i].id == ts[i].id && r[i].name == ts[i].name
    ensures forall i :: 0 <= i < |ts| ==> r[i].duration == ts[i].duration && r[i].timeLeft == ts[i].timeLeft
  {
    seq(|ts|, i requires 0 <= i < |ts| => Snapshot(ts[i]))
  }

  /** `loadTimers`: an empty list when nothing usable is stored, otherwise every record rebuilt stopped. */
  function LoadTimers(stored: Option<seq<SavedRecord>>): (ts: seq<Timer>)
    ensures stored.None? ==> ts == []
    ensures stored.Some? ==> |ts| == |stored.value|
    ensures stored.Some? ==> forall i :: 0 <= i < |ts| ==> Snapshot(ts[i]) == stored.value[i]
    ensures forall i :: 0 <= i < |ts| ==> !ts[i].isRunning && ts[i].tickHandle.None? && ts[i].alarmHandle.None?
  {
    match stored
    case None => []
    case Some(recs) => seq(|recs|, i requires 0 <= i < |recs| => Rehydrate(recs[i]))
  }

  /**
   * Saving then loading gives back the same timers in the same order, each
   * with its id, name, duration and time left, but stopped and with no handles,
   * whatever its run state was when saved.
   */
  lemma SaveThenLoad(ts: seq<Timer>)
    ensures LoadTimers(Some(Project(ts))) ==
      seq(|ts|, i requires 0 <= i < |ts| => ts[i].(isRunning := false, tickHandle := None, alarmHandle := None))
  {
  }

  /** Loading then saving writes back exactly the records that were stored. */
  lemma LoadThenSave(recs: seq<SavedRecord>)
    ensures Project(LoadTimers(Some(recs))) == recs
  {
  }

  /**
   * Loading checks nothing: a stored record with more time left than its
   * duration, or a negative one, comes back as it was.
   */
  lemma LoadKeepsOutOfRangeTime(s: SavedRecord)
    requires s.timeLeft < 0 || s.timeLeft > s.duration
    ensures var ts := LoadTimers(Some([s]));
      |ts| == 1 && (ts[0].timeLeft < 0 || ts[0].timeLeft > ts[0].duration)
  {
  }

  /** Changing only the run state or the handles of one timer does not change what is saved. */
  lemma ProjectIgnoresRuntime(ts: seq<Timer>, i: nat, u: Timer)
    requires i < |ts| && Snapshot(u) == Snapshot(ts[i])
    ensures Project(ts[i := u]) == Project(ts)
  {
  }
}
