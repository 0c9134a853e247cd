/** The app-level store (`src/pages/MobileApp.tsx`): the workout minutes and
    streak, and the meal, measurement and frequency logs that the screens
    read, with the handlers that change them. */
module MobileApp {

  import opened PlateMethod
  import opened Meals
  import opened NutTracker
  import Sequences

  /** A body measurement as the progress screen saves it: its date and three
      readings. */
  datatype Measurement = Measurement(date: int, weight: real, waist: real, thigh: real)

  /** What the settings screen asks `handleResetData` to clear. */
  datatype ResetKind = ResetAll | ResetMeals | ResetProgress | ResetWorkouts | ResetNut

  /** Everything the store holds, as one value. */
  datatype Store = Store(
    minutesCompleted: int,
    streak: int,
    mealLogs: seq<MealLog>,
    measurements: seq<Measurement>,
    nutLogs: seq<NutLog>)

  const MsPerHour := 3600000

  /** Midnight UTC of 2024-01-01, the date of the first sample measurement. */
  const FirstMeasurementDate := 1704067200000
  const MsPerWeek := 7 * MsPerDay

  /** The sample data the app starts with, at time `now`. */
  function InitialStore(now: int): Store
  {
    Store(
      25,
      7,
      [ MealLog("1", now - 4 * MsPerHour, PlateCheck(true, true, true)),
        MealLog("2", now - 8 * MsPerHour, PlateCheck(true, false, true)) ],
      [ Measurement(FirstMeasurementDate, 90.0, 95.0, 62.0),
        Measurement(FirstMeasurementDate + MsPerWeek, 89.2, 94.0, 61.5),
        Measurement(FirstMeasurementDate + 2 * MsPerWeek, 88.5, 93.0, 61.0),
        Measurement(FirstMeasurementDate + 3 * MsPerWeek, 87.8, 92.0, 60.5) ],
      [ NutLog("1", now - MsPerDay * 1, 15),
        NutLog("2", now - MsPerDay * 2, 10),
        NutLog("3", now - MsPerDay * 5, 20) ])
  }

  /** The sample meals: a perfect one and one with two habits, both earlier
      today or before. */
  lemma InitialMeals(now: int)
    ensures var s := InitialStore(now);
      && |s.mealLogs| == 2 && IsPerfect(s.mealLogs[0].checks) && Score(s.mealLogs[1].checks) == 2
      && forall m :: m in s.mealLogs ==> m.timestamp < now
  {
    var meals := InitialStore(now).mealLogs;
    assert Score(meals[1].checks) == Indicator(true) + Indicator(false) + Indicator(true);
    forall m | m in meals ensures m.timestamp < now {
      assert m == meals[0] || m == meals[1];
    }
  }

  /** The sample measurements are a week apart, the weight going down. */
  lemma InitialMeasurements(now: int)
    ensures var ms := InitialStore(now).measurements;
      && |ms| == 4
      && forall i :: 0 < i < |ms| ==> ms[i].date == ms[i - 1].date + MsPerWeek && ms[i].weight < ms[i - 1].weight
  {
    var ms := InitialStore(now).measurements;
    forall i | 0 < i < |ms| ensures ms[i].date == ms[i - 1].date + MsPerWeek && ms[i].weight < ms[i - 1].weight {
      assert i == 1 || i == 2 || i == 3;
    }
  }

  /** The sample sessions are in the past and would pass the dialog's check. */
  lemma InitialSessionsValid(now: int)
    ensures forall l :: l in InitialStore(now).nutLogs ==> 0 < l.duration < MinutesPerDay && l.date < now
  {
    var logs := InitialStore(now).nutLogs;
    forall l | l in logs ensures 0 < l.duration < MinutesPerDay && l.date < now {
      assert l == logs[0] || l == logs[1] || l == logs[2];
    }
  }

  /** The sample frequency logs fall on three different days: one, two and
      five days back. They add up to 45 minutes, 15 a day; the sessions run
      from 10 to 20 minutes. */
  lemma InitialNutStats(now: int)
    ensures var logs := InitialStore(now).nutLogs;
      && Days(logs) == {DayOf(now) - 1, DayOf(now) - 2, DayOf(now) - 5}
      && TotalTime(logs) == 45
      && AvgMinDay(logs) == 15
      && Sessions(logs) == SessionStats(20, 10)
  {
    var logs := InitialStore(now).nutLogs;
    assert DayOf(logs[0].date) == DayOf(now) - 1 by { assert logs[0].date == SessionDate(now, 1); }
    assert DayOf(logs[1].date) == DayOf(now) - 2 by { assert logs[1].date == SessionDate(now, 2); }
    assert DayOf(logs[2].date) == DayOf(now) - 5 by { assert logs[2].date == SessionDate(now, 5); }
    assert Days(logs) == {DayOf(now) - 1, DayOf(now) - 2, DayOf(now) - 5};
    assert TotalTime(logs) == 45 by {
      var one, two := [logs[0]], [logs[0], logs[1]];
      assert one[..0] == [] && two[..1] == one && logs[..2] == two;
      assert TotalTime(one) == 15;
      assert TotalTime(two) == 25;
    }
  }

  /** `prev.filter(l => l.id !== id)`. */
  function RemoveById(logs: seq<NutLog>, id: string): (r: seq<NutLog>)
    ensures Sequences.IsSubsequence(r, logs)
    ensures forall l :: l in r <==> l in logs && l.id != id
    ensures (forall l :: l in logs ==> l.id != id) ==> r == logs
  {
    if logs == [] then []
    else if logs[0].id == id then
      var r := RemoveById(logs[1..], id);
      assert r != [] ==> r[0] in r;
      r
    else
      var r := [logs[0]] + RemoveById(logs[1..], id);
      assert r[1..] == RemoveById(logs[1..], id);
      assert logs == [logs[0]] + logs[1..];
      r
  }

  /** Every log with another id stays as many times as it was there; none
      with this id stays. */
  lemma {:induction false} RemoveByIdCounts(logs: seq<NutLog>, id: string)
    ensures forall l :: multiset(RemoveById(logs, id))[l] == if l.id != id then multiset(logs)[l] else 0
  {
    if logs != [] {
      RemoveByIdCounts(logs[1..], id);
      assert logs == [logs[0]] + logs[1..];
      assert multiset(logs) == multiset{logs[0]} + multiset(logs[1..]);
      if logs[0].id != id {
        var r := RemoveById(logs, id);
        assert r == [logs[0]] + RemoveById(logs[1..], id);
        assert multiset(r) == multiset{logs[0]} + multiset(RemoveById(logs[1..], id));
      }
    }
  }

  /** Deleting a log that was just saved under a fresh id gives back the
      logs as they were. */
  lemma {:induction false} DeleteUndoesSave(logs: seq<NutLog>, id: string, date: int, duration: int)
    requires forall l :: l in logs ==> l.id != id
    ensures RemoveById(logs + [NutLog(id, date, duration)], id) == logs
  {
    var x := NutLog(id, date, duration);
    var all := logs + [x];
    if logs == [] {
      assert all == [x] && all[1..] == [];
    } else {
      assert logs[0] in logs;
      assert all[0] == logs[0] && all[1..] == logs[1..] + [x];
      assert forall l :: l in logs[1..] ==> l in logs;
      DeleteUndoesSave(logs[1..], id, date, duration);
      assert RemoveById(all, id) == [logs[0]] + RemoveById(all[1..], id);
      assert logs == [logs[0]] + logs[1..];
    }
  }

  /** `handleResetData(kind)`: the stores the kind names are emptied, the
      workout counters zeroed; everything else stays. */
  function Reset(s: Store, kind: ResetKind): (r: Store)
    ensures r.mealLogs == if kind in {ResetAll, ResetMeals} then [] else s.mealLogs
    ensures r.measurements == if kind in {ResetAll, ResetProgress} then [] else s.measurements
    ensures r.nutLogs == if kind in {ResetAll, ResetNut} then [] else s.nutLogs
    ensures r.minutesCompleted == if kind in {ResetAll, ResetWorkouts} then 0 else s.minutesCompleted
    ensures r.streak == if kind in {ResetAll, ResetWorkouts} then 0 else s.streak
  {
    var s := if kind == ResetAll || kind == ResetMeals then s.(mealLogs := []) else s;
    var s := if kind == ResetAll || kind == ResetProgress then s.(measurements := []) else s;
    var s := if kind == ResetAll || kind == ResetNut then s.(nutLogs := []) else s;
    if kind == ResetAll || kind == ResetWorkouts then s.(minutesCompleted := 0, streak := 0) else s
  }

  /** Resetting everything is resetting each part in turn, in any order. */
  lemma ResetAllIsEveryReset(s: Store)
    ensures Reset(s, ResetAll) == Reset(Reset(Reset(Reset(s, ResetMeals), ResetProgress), ResetNut), ResetWorkouts)
    ensures Reset(s, ResetAll) == Reset(Reset(Reset(Reset(s, ResetWorkouts), ResetNut), ResetProgress), ResetMeals)
  {
  }

  /** A reset twice is a reset once. */
  lemma ResetIdempotent(s: Store, kind: ResetKind)
    ensures Reset(Reset(s, kind), kind) == Reset(s, kind)
  {
  }

  /** The shared state of the app. */
  class AppStore {
    var minutesCompleted: int
    var streak: int
    var mealLogs: seq<MealLog>
    var measurements: seq<Measurement>
    var nutLogs: seq<NutLog>

    function Current(): Store
      reads this
    {
      Store(minutesCompleted, streak, mealLogs, measurements, nutLogs)
    }

    /** The store as the app starts, at time `now`. */
    constructor (now: int)
      ensures Current() == InitialStore(now)
    {
      var s := InitialStore(now);
      minutesCompleted := s.minutesCompleted;
      streak := s.streak;
      mealLogs := s.mealLogs;
      measurements := s.measurements;
      nutLogs := s.nutLogs;
    }

    /** `handleProgressUpdate`: add the minutes the timer reports. */
    method ProgressUpdate(minutes: int)
      modifies this
      ensures Current() == old(Current()).(minutesCompleted := old(minutesCompleted) + minutes)
    {
      minutesCompleted := minutesCompleted + minutes;
    }

    /** `handleSaveMeal`: the new meal, stamped `now` with id `id`, goes in
        front. */
    method SaveMeal(id: string, now: int, checks: PlateCheck)
      modifies this
      ensures mealLogs == [MealLog(id, now, checks)] + old(mealLogs)
      ensures |mealLogs| == |old(mealLogs)| + 1 && mealLogs[1..] == old(mealLogs)
      ensures Current() == old(Current()).(mealLogs := mealLogs)
    {
      mealLogs := [MealLog(id, now, checks)] + mealLogs;
    }

    /** `handleSaveMeasurement`: the measurement goes at the end. */
    method SaveMeasurement(m: Measurement)
      modifies this
      ensures measurements == old(measurements) + [m]
      ensures Current() == old(Current()).(measurements := measurements)
    {
      measurements := measurements + [m];
    }

    /** `handleSaveNutLog`: a log with id `id` goes at the end. */
    method SaveNutLog(id: string, date: int, duration: int)
      modifies this
      ensures nutLogs == old(nutLogs) + [NutLog(id, date, duration)]
      ensures Current() == old(Current()).(nutLogs := nutLogs)
    {
      nutLogs := nutLogs + [NutLog(id, date, duration)];
    }

    /** `handleDeleteNutLog`: every log with that id goes. */
    method DeleteNutLog(id: string)
      modifies this
      ensures nutLogs == RemoveById(old(nutLogs), id)
      ensures Current() == old(Current()).(nutLogs := nutLogs)
    {
      nutLogs := RemoveById(nutLogs, id);
    }

    /** `handleResetData`. */
    method ResetData(kind: ResetKind)
      modifies this
      ensures Current() == Reset(old(Current()), kind)
    {
      if kind == ResetAll || kind == ResetMeals {
        mealLogs := [];
      }
      if kind == ResetAll || kind == ResetProgress {
        measurements := [];
      }
      if kind == ResetAll || kind == ResetNut {
        nutLogs := [];
      }
      if kind == ResetAll || kind == ResetWorkouts {
        minutesCompleted := 0;
        streak := 0;
      }
    }
  }
}
