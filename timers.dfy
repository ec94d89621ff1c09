/**
 * The timer record of app.js and the pure operations on the timer list:
 * lookup by id (`findTimer`), the largest id (start-up), the delete filter,
 * and the sets of interval handles the records hold.
 */
module Timers {
  import opened Wrappers

  /** An interval handle, as returned by `setInterval`; only compared and cleared. */
  datatype Token = Token(n: nat)

  /** What a live interval calls each time it fires. */
  datatype Job = TickJob(timerId: int) | AlarmJob(timerId: int)

  /**
   * One countdown. `duration` and `timeLeft` are whole seconds; `tickHandle`
   * is the source's `timerID` field and `alarmHandle` its `alarmInterval`.
   */
  datatype Timer = Timer(
    id: int,
    name: string,
    duration: int,
    timeLeft: int,
    isRunning: bool,
    tickHandle: Option<Token>,
    alarmHandle: Option<Token>)

  /** The handle `h` holds, as a set of at most one token. */
  function TokensOf(h: Option<Token>): (s: set<Token>)
    ensures h.None? <==> s == {}
    ensures forall k :: k in s <==> h == Some(k)
  {
    if h.Some? then {h.value} else {}
  }

  /** Position of the first timer with the given id (`timers.find(t => t.id === id)`). */
  function FindIndex(ts: seq<Timer>, id: int): (r: Option<nat>)
    ensures r.Some? ==> r.value < |ts| && ts[r.value].id == id
  {
    if |ts| == 0 then None
    else if ts[0].id == id then Some(0)
    else
      match FindIndex(ts[1..], id)
      case None => None
      case Some(k) => Some(k + 1)
  }

  /** The lookup finds the first timer with the id, and fails exactly when no timer has it. */
  lemma {:induction false} FindIndexFirst(ts: seq<Timer>, id: int)
    ensures FindIndex(ts, id).Some? ==> forall j :: 0 <= j < FindIndex(ts, id).value ==> ts[j].id != id
    ensures FindIndex(ts, id).None? <==> forall j :: 0 <= j < |ts| ==> ts[j].id != id
  {
    if |ts| > 0 && ts[0].id != id {
      FindIndexFirst(ts[1..], id);
      assert forall j :: 1 <= j < |ts| ==> ts[j] == ts[1..][j - 1];
    }
  }

  /** Replacing a timer by one with the same id moves no lookup. */
  lemma {:induction false} FindIndexUpdate(ts: seq<Timer>, i: nat, u: Timer, id: int)
    requires i < |ts| && u.id == ts[i].id
    ensures FindIndex(ts[i := u], id) == FindIndex(ts, id)
  {
    if i > 0 {
      assert ts[i := u][1..] == ts[1..][i - 1 := u];
      FindIndexUpdate(ts[1..], i - 1, u, id);
    }
  }

  /** `Math.max(...timers.map(t => t.id))` on a non-empty list. */
  function MaxId(ts: seq<Timer>): (r: int)
    requires |ts| > 0
    ensures forall j :: 0 <= j < |ts| ==> ts[j].id <= r
    ensures exists j :: 0 <= j < |ts| && ts[j].id == r
  {
    if |ts| == 1 then ts[0].id
    else
      var m := MaxId(ts[1..]);
      if ts[0].id >= m then ts[0].id else m
  }

  /** Appending a timer leaves every lookup that already succeeded where it was; the new timer is found only for its own, new id. */
  lemma {:induction false} FindIndexAppend(ts: seq<Timer>, t: Timer, id: int)
    ensures FindIndex(ts, id).Some? ==> FindIndex(ts + [t], id) == FindIndex(ts, id)
    ensures FindIndex(ts, id).None? ==> FindIndex(ts + [t], id) == if t.id == id then Some(|ts|) else None
  {
    if |ts| > 0 {
      assert (ts + [t])[1..] == ts[1..] + [t];
      FindIndexAppend(ts[1..], t, id);
    }
  }

  /** `timers.filter(t => t.id !== id)`: every timer with that id goes, the rest keep their order. */
  function RemoveId(ts: seq<Timer>, id: int): (r: seq<Timer>)
    ensures |r| <= |ts|
  {
    if |ts| == 0 then []
    else if ts[0].id == id then RemoveId(ts[1..], id)
    else [ts[0]] + RemoveId(ts[1..], id)
  }

  /** A timer survives the filter exactly when it was in the list with another id. */
  lemma {:induction false} RemoveIdMembers(ts: seq<Timer>, id: int)
    ensures forall j :: 0 <= j < |RemoveId(ts, id)| ==> RemoveId(ts, id)[j] in ts && RemoveId(ts, id)[j].id != id
    ensures forall j :: 0 <= j < |ts| && ts[j].id != id ==> ts[j] in RemoveId(ts, id)
  {
    if |ts| > 0 {
      RemoveIdMembers(ts[1..], id);
      var rest := RemoveId(ts[1..], id);
      forall j | 0 <= j < |ts| && ts[j].id != id ensures ts[j] in RemoveId(ts, id) {
        if j > 0 {
          assert ts[j] == ts[1..][j - 1];
        }
      }
    }
  }

  /** After the delete filter, no timer with the removed id is found. */
  lemma {:induction false} FindIndexRemoved(ts: seq<Timer>, id: int)
    ensures FindIndex(RemoveId(ts, id), id).None?
  {
    if |ts| > 0 {
      FindIndexRemoved(ts[1..], id);
      if ts[0].id != id {
        var r := [ts[0]] + RemoveId(ts[1..], id);
        assert RemoveId(ts, id) == r && r[1..] == RemoveId(ts[1..], id);
      }
    }
  }

  /** Filtering out one id leaves the lookup of every other id finding the same timer. */
  lemma {:induction false} FindIndexRemove(ts: seq<Timer>, id: int, x: int)
    requires x != id
    ensures FindIndex(RemoveId(ts, id), x).Some? <==> FindIndex(ts, x).Some?
    ensures FindIndex(ts, x).Some? ==>
      RemoveId(ts, id)[FindIndex(RemoveId(ts, id), x).value] == ts[FindIndex(ts, x).value]
  {
    if |ts| == 0 {
      return;
    }
    var rest := RemoveId(ts[1..], id);
    if ts[0].id == x {
      var r := [ts[0]] + rest;
      assert RemoveId(ts, id) == r && r[0] == ts[0];
      assert FindIndex(r, x) == Some(0);
    } else {
      FindIndexRemove(ts[1..], id, x);
      var f := FindIndex(ts[1..], x);
      assert FindIndex(ts, x) == if f.Some? then Some(f.value + 1) else None;
      if ts[0].id == id {
        assert RemoveId(ts, id) == rest;
      } else {
        var r := [ts[0]] + rest;
        assert RemoveId(ts, id) == r && r[1..] == rest;
        var g := FindIndex(rest, x);
        assert FindIndex(r, x) == if g.Some? then Some(g.value + 1) else None;
      }
    }
  }

  /** Deleting an id nobody has leaves the list as it was. */
  lemma {:induction false} RemoveAbsentId(ts: seq<Timer>, id: int)
    requires forall j :: 0 <= j < |ts| ==> ts[j].id != id
    ensures RemoveId(ts, id) == ts
  {
    if |ts| > 0 {
      RemoveAbsentId(ts[1..], id);
      assert ts == [ts[0]] + ts[1..];
    }
  }

  /** Deleting an id held by exactly one timer cuts out that timer and nothing else. */
  lemma {:induction false} RemoveUniqueId(ts: seq<Timer>, id: int, i: nat)
    requires i < |ts| && ts[i].id == id
    requires forall j :: 0 <= j < |ts| && j != i ==> ts[j].id != id
    ensures RemoveId(ts, id) == ts[..i] + ts[i + 1..]
  {
    if i == 0 {
      RemoveAbsentId(ts[1..], id);
    } else {
      RemoveUniqueId(ts[1..], id, i - 1);
      assert ts[1..][..i - 1] == ts[1..i];
      assert ts[..i] == [ts[0]] + ts[1..i];
      assert ts[1..][i..] == ts[i + 1..];
    }
  }

  /** The alarm handles held by the timers, in list order. */
  function AlarmHandles(ts: seq<Timer>): (s: set<Token>)
    ensures forall k :: k in s <==> exists j :: 0 <= j < |ts| && ts[j].alarmHandle == Some(k)
  {
    if |ts| == 0 then {}
    else
      var init := ts[..|ts| - 1];
      assert forall j :: 0 <= j < |init| ==> init[j] == ts[j];
      AlarmHandles(init) + TokensOf(ts[|ts| - 1].alarmHandle)
  }
}
