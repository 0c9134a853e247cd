/** The frequency tracker screen (`src/pages/NutTrackerScreen.tsx`): the
    dialog that logs a session, and the statistics, week chart, advice and
    history computed from the logs. Dates are millisecond timestamps; a log
    belongs to the calendar day `DayOf(date)`. */
module NutTracker {

  import opened Wrappers
  import Digits

  const MsPerDay := 86400000

  /** Durations are accepted from 1 up to, but not including, this many
      minutes (one day). */
  const MinutesPerDay := 1440

  /** The duration field's initial text. */
  const DefaultDuration := "15"

  /** How many days back the dialog lets a session be dated. */
  const MaxOffset := 3

  /** How many entries the history shows. */
  const HistoryLength := 10

  /** `NutLog`: `date` in milliseconds since the epoch, `duration` in minutes. */
  datatype NutLog = NutLog(id: string, date: int, duration: int)

  /** The calendar day a timestamp falls on (`toDateString()`), counted from
      the epoch. */
  function DayOf(t: int): (day: int)
    ensures day * MsPerDay <= t < (day + 1) * MsPerDay
  {
    t / MsPerDay
  }

  // ---------------------------------------------------------------------
  // parseInt

  /** The characters JavaScript's `parseInt` skips at the front: white space
      and line terminators. */
  predicate IsSpace(c: char)
  {
    || c in {' ', '\t', '\n', '\r', '\U{000B}', '\U{000C}', '\U{00A0}', '\U{1680}'}
    || c in {'\U{2028}', '\U{2029}', '\U{202F}', '\U{205F}', '\U{3000}', '\U{FEFF}'}
    || '\U{2000}' <= c <= '\U{200A}'
  }

  /** `s` without its leading white space. */
  function TrimStart(s: string): (r: string)
    ensures |r| <= |s| && r == s[|s| - |r|..]
    ensures forall i :: 0 <= i < |s| - |r| ==> IsSpace(s[i])
    ensures r == [] || !IsSpace(r[0])
  {
    if s != [] && IsSpace(s[0]) then
      var r := TrimStart(s[1..]);
      assert forall i :: 1 <= i < |s| ==> s[i] == s[1..][i - 1];
      r
    else s
  }

  /** `parseInt(s)` without a radix: leading white space, an optional sign,
      then an unsigned number; `None` stands for `NaN`. */
  function ParseInt(s: string): (r: Option<int>)
    ensures r.Some? ==> TrimStart(s) != []
    ensures r.Some? && r.value < 0 ==> TrimStart(s)[0] == '-'
    ensures r.Some? && TrimStart(s)[0] == '-' ==> r.value <= 0
  {
    var t := TrimStart(s);
    if t != [] && t[0] == '-' then
      match Unsigned(t[1..])
      case None => None
      case Some(n) => Some(-(n as int))
    else if t != [] && t[0] == '+' then Unsigned(t[1..])
    else Unsigned(t)
  }

  /** The unsigned part: a `0x` or `0X` prefix switches to base 16, then the
      longest run of digits is read; `None` when that run is empty. */
  function Unsigned(u: string): (r: Option<nat>)
    ensures var hex := |u| >= 2 && u[0] == '0' && (u[1] == 'x' || u[1] == 'X');
      var body := if hex then u[2..] else u;
      r.None? <==> body == [] || Digits.DigitOf(body[0], if hex then 16 else 10) < 0
  {
    var hex := |u| >= 2 && u[0] == '0' && (u[1] == 'x' || u[1] == 'X');
    var radix := if hex then 16 else 10;
    var digits := Digits.LeadingIn(if hex then u[2..] else u, radix);
    if digits == [] then None else Some(Digits.ValueIn(digits, radix))
  }

  /** `parseInt` reads back what `toString()` writes, and stops at the first
      character that is no digit (unless that turns a lone `0` into a `0x`
      prefix). */
  lemma ParseIntShow(n: nat, rest: string)
    requires rest == [] || Digits.DigitOf(rest[0], 10) < 0
    requires n == 0 && rest != [] ==> rest[0] != 'x' && rest[0] != 'X'
    ensures ParseInt(Digits.Show(n) + rest) == Some(n)
  {
    var p := Digits.Show(n);
    var s := p + rest;
    assert s[0] == p[0];
    assert !IsSpace(s[0]) by { assert 0 <= Digits.DigitOf(p[0], 10); }
    assert TrimStart(s) == s;
    assert ParseInt(s) == Unsigned(s) by { assert s[0] != '-' && s[0] != '+'; }
    UnsignedShow(n, rest);
  }

  lemma UnsignedShow(n: nat, rest: string)
    requires rest == [] || Digits.DigitOf(rest[0], 10) < 0
    requires n == 0 && rest != [] ==> rest[0] != 'x' && rest[0] != 'X'
    ensures Unsigned(Digits.Show(n) + rest) == Some(n)
  {
    var p := Digits.Show(n);
    var s := p + rest;
    assert s[0] == p[0];
    assert p[0] == '0' ==> n == 0 by {
      if |p| == 1 { assert p[..0] == []; }
    }
    assert !(|s| >= 2 && s[0] == '0' && (s[1] == 'x' || s[1] == 'X')) by {
      if |s| >= 2 && s[0] == '0' {
        assert |p| == 1;
        assert s[1] == rest[0];
      }
    }
    Digits.LeadingStopsAt(p, rest, 10);
  }

  /** A text that, after its white space, starts with neither a sign nor a
      digit is `NaN`. */
  lemma ParseIntNoDigits(s: string)
    requires var t := TrimStart(s); t == [] || (t[0] != '-' && t[0] != '+' && Digits.DigitOf(t[0], 10) < 0)
    ensures ParseInt(s) == None
  {
  }

  /** The duration check of `handleSave`: the parsed number when it is a
      number from 1 to 1439, `None` for everything the dialog rejects. */
  function ValidDuration(text: string): (r: Option<int>)
    ensures r.Some? <==> ParseInt(text).Some? && 0 < ParseInt(text).value < MinutesPerDay
    ensures r.Some? ==> r.value == ParseInt(text).value
  {
    match ParseInt(text)
    case None => None
    case Some(mins) => if mins <= 0 || mins >= MinutesPerDay then None else Some(mins)
  }

  /** Typing a whole number of minutes is accepted exactly for 1..1439. */
  lemma AcceptedDurations(n: nat)
    ensures ValidDuration(Digits.Show(n)).Some? <==> 1 <= n < MinutesPerDay
    ensures ValidDuration(Digits.Show(n)).Some? ==> ValidDuration(Digits.Show(n)).value == n
  {
    ParseIntShow(n, []);
    assert Digits.Show(n) + [] == Digits.Show(n);
  }

  /** The date `handleSave` gives a session logged `offset` days back. */
  function SessionDate(now: int, offset: int): (date: int)
    ensures DayOf(date) == DayOf(now) - offset
  {
    var date := now - offset * MsPerDay;
    assert now == DayOf(now) * MsPerDay + now % MsPerDay;
    assert date == (DayOf(now) - offset) * MsPerDay + now % MsPerDay;
    date
  }

  /** A call the dialog made to `onSaveLog(date, duration)`. */
  datatype SaveCall = SaveCall(date: int, minutes: int)

  /** The "Log Activity" dialog and its state. */
  class LogDialog {
    var visible: bool
    var offset: int
    var text: string
    var hasError: bool
    var saves: seq<SaveCall>

    /** The offset is one the date buttons offer, and every saved duration
        passed the check. */
    predicate Valid()
      reads this
    {
      && 0 <= offset <= MaxOffset
      && forall c :: c in saves ==> 0 < c.minutes < MinutesPerDay
    }

    constructor ()
      ensures Valid()
      ensures !visible && offset == 0 && text == DefaultDuration && !hasError && saves == []
    {
      visible := false;
      offset := 0;
      text := DefaultDuration;
      hasError := false;
      saves := [];
    }

    /** LOG NEW SESSION opens the dialog. */
    method Open()
      modifies this
      ensures visible
      ensures offset == old(offset) && text == old(text) && hasError == old(hasError) && saves == old(saves)
    {
      visible := true;
    }

    /** One of the Today / Yest. / 2d ago / 3d ago buttons. */
    method SelectOffset(k: int)
      requires Valid() && 0 <= k <= MaxOffset
      modifies this
      ensures Valid() && offset == k
      ensures visible == old(visible) && text == old(text) && hasError == old(hasError) && saves == old(saves)
    {
      offset := k;
    }

    /** Editing the duration field clears the error. */
    method ChangeText(t: string)
      modifies this
      ensures text == t && !hasError
      ensures visible == old(visible) && offset == old(offset) && saves == old(saves)
    {
      text := t;
      hasError := false;
    }

    /** CANCEL, or a tap outside the dialog. */
    method Dismiss()
      modifies this
      ensures !visible
      ensures offset == old(offset) && text == old(text) && hasError == old(hasError) && saves == old(saves)
    {
      visible := false;
    }

    /** `handleSave`, at time `now`: a rejected duration raises the error and
        keeps the dialog open; an accepted one clears the error, saves one
        session dated `offset` days back and closes the dialog. */
    method HandleSave(now: int)
      requires Valid()
      modifies this
      ensures Valid()
      ensures offset == old(offset) && text == old(text)
      ensures ValidDuration(old(text)).None? ==>
        hasError && saves == old(saves) && visible == old(visible)
      ensures ValidDuration(old(text)).Some? ==>
        && !hasError && !visible
        && saves == old(saves) + [SaveCall(SessionDate(now, old(offset)), ValidDuration(old(text)).value)]
    {
      var mins := ValidDuration(text);
      if mins.None? {
        hasError := true;
        return;
      }
      hasError := false;
      var date := now - offset * MsPerDay;
      assert date == SessionDate(now, offset);
      saves := saves + [SaveCall(date, mins.value)];
      visible := false;
    }
  }

  /** Saving the default text logs a 15-minute session on the chosen day. */
  lemma DefaultSave(now: int, offset: int)
    ensures ValidDuration(DefaultDuration) == Some(15)
    ensures DayOf(SessionDate(now, offset)) == DayOf(now) - offset
  {
    assert ValidDuration(DefaultDuration) == Some(15) by {
      assert Digits.Show(15) == DefaultDuration by {
        assert Digits.Show(15) == Digits.Show(1) + [Digits.DigitChar(5)];
      }
      AcceptedDurations(15);
    }
    assert DayOf(SessionDate(now, offset)) == DayOf(now) - offset;
  }

  // ---------------------------------------------------------------------
  // Statistics

  /** `totalTime`: the minutes of all sessions. */
  function TotalTime(logs: seq<NutLog>): (t: int)
    ensures logs == [] ==> t == 0
    ensures |logs| == 1 ==> t == logs[0].duration
    ensures (forall i :: 0 <= i < |logs| ==> logs[i].duration >= 0) ==>
      0 <= t && forall i :: 0 <= i < |logs| ==> logs[i].duration <= t
  {
    if logs == [] then 0
    else
      var init := logs[..|logs| - 1];
      assert forall i :: 0 <= i < |init| ==> init[i] == logs[i];
      TotalTime(init) + logs[|logs| - 1].duration
  }

  /** The total of two lists of logs put together. */
  lemma {:induction false} TotalTimeAppend(a: seq<NutLog>, b: seq<NutLog>)
    ensures TotalTime(a + b) == TotalTime(a) + TotalTime(b)
    decreases |b|
  {
    if b != [] {
      assert (a + b)[..|a + b| - 1] == a + b[..|b| - 1];
      TotalTimeAppend(a, b[..|b| - 1]);
    } else {
      assert a + b == a;
    }
  }

  /** Sessions that passed the dialog's check add up to between one and
      1439 minutes each. */
  lemma {:induction false} TotalTimeBounds(logs: seq<NutLog>)
    requires forall l :: l in logs ==> 0 < l.duration < MinutesPerDay
    ensures |logs| <= TotalTime(logs) <= (MinutesPerDay - 1) * |logs|
  {
    if logs != [] {
      var init := logs[..|logs| - 1];
      assert forall l :: l in init ==> l in logs;
      TotalTimeBounds(init);
      assert logs[|logs| - 1] in logs;
    }
  }

  /** The distinct calendar days that have a log (`new Set(... toDateString())`). */
  function Days(logs: seq<NutLog>): set<int>
  {
    set i | 0 <= i < |logs| :: DayOf(logs[i].date)
  }

  /** A day is among the days exactly when some log falls on it. */
  lemma DaysOfLogs(logs: seq<NutLog>)
    ensures forall l :: l in logs ==> DayOf(l.date) in Days(logs)
    ensures forall d :: d in Days(logs) ==> exists l :: l in logs && DayOf(l.date) == d
  {
    forall l | l in logs ensures DayOf(l.date) in Days(logs) {
      var i :| 0 <= i < |logs| && logs[i] == l;
    }
    forall d | d in Days(logs) ensures exists l :: l in logs && DayOf(l.date) == d {
      var i :| 0 <= i < |logs| && DayOf(logs[i].date) == d;
      assert logs[i] in logs;
    }
  }

  /** One more log adds its day to the set of days. */
  lemma DaysSnoc(logs: seq<NutLog>, l: NutLog)
    ensures Days(logs + [l]) == Days(logs) + {DayOf(l.date)}
  {
    var all := logs + [l];
    forall d | d in Days(all) ensures d in Days(logs) + {DayOf(l.date)} {
      var i :| 0 <= i < |all| && DayOf(all[i].date) == d;
      if i < |logs| { assert all[i] == logs[i]; } else { assert all[i] == l; }
    }
    assert all[|logs|] == l;
    forall d | d in Days(logs) ensures d in Days(all) {
      var i :| 0 <= i < |logs| && DayOf(logs[i].date) == d;
      assert all[i] == logs[i];
    }
  }

  /** There are at least one and at most as many distinct days as logs. */
  lemma {:induction false} DaysCount(logs: seq<NutLog>)
    ensures |Days(logs)| <= |logs|
    ensures |logs| > 0 ==> |Days(logs)| >= 1
  {
    if logs != [] {
      var init := logs[..|logs| - 1];
      assert init + [logs[|logs| - 1]] == logs;
      DaysSnoc(init, logs[|logs| - 1]);
      DaysCount(init);
    }
  }

  /** `Math.round(a / b)` for a positive `b`: the nearest integer, halves
      rounded up. */
  function RoundDiv(a: int, b: int): (r: int)
    requires b > 0
    ensures 2 * r * b <= 2 * a + b < 2 * (r + 1) * b
  {
    var r := (2 * a + b) / (2 * b);
    assert 2 * a + b == r * (2 * b) + (2 * a + b) % (2 * b);
    r
  }

  /** `avgMinDay`: the total time over the number of distinct days, rounded;
      0 with no logs. */
  function AvgMinDay(logs: seq<NutLog>): (avg: int)
    ensures |logs| == 0 ==> avg == 0
    ensures |logs| > 0 ==>
      var days := |Days(logs)|;
      2 * avg * days <= 2 * TotalTime(logs) + days < 2 * (avg + 1) * days
  {
    if |logs| == 0 then 0
    else
      DaysCount(logs);
      RoundDiv(TotalTime(logs), Max(|Days(logs)|, 1))
  }

  function Max(a: int, b: int): int
  {
    if a >= b then a else b
  }

  /** When every log is from the same day, the daily average is the total. */
  lemma OneDayAverage(logs: seq<NutLog>, day: int)
    requires |logs| > 0
    requires forall l :: l in logs ==> DayOf(l.date) == day
    ensures AvgMinDay(logs) == TotalTime(logs)
  {
    assert Days(logs) == {day} by {
      assert logs[0] in logs;
      assert DayOf(logs[0].date) in Days(logs);
      forall d | d in Days(logs) ensures d == day {
        var i :| 0 <= i < |logs| && DayOf(logs[i].date) == d;
        assert logs[i] in logs;
      }
    }
    var total := TotalTime(logs);
    assert AvgMinDay(logs) == RoundDiv(total, 1);
    assert RoundDiv(total, 1) == total by {
      assert (2 * total + 1) / 2 == total;
    }
  }

  /** `sessionStats`: the longest and the shortest session. */
  datatype SessionStats = SessionStats(max: int, min: int)

  function Sessions(logs: seq<NutLog>): (s: SessionStats)
    ensures |logs| == 0 ==> s == SessionStats(0, 0)
    ensures |logs| > 0 ==>
      && (exists i :: 0 <= i < |logs| && logs[i].duration == s.max)
      && (exists i :: 0 <= i < |logs| && logs[i].duration == s.min)
      && (forall i :: 0 <= i < |logs| ==> s.min <= logs[i].duration <= s.max)
  {
    if |logs| == 0 then SessionStats(0, 0)
    else if |logs| == 1 then SessionStats(logs[0].duration, logs[0].duration)
    else
      var rest := Sessions(logs[1..]);
      assert forall i :: 1 <= i < |logs| ==> logs[i] == logs[1..][i - 1];
      var d := logs[0].duration;
      SessionStats(if d >= rest.max then d else rest.max, if d <= rest.min then d else rest.min)
  }

  /** The number of logs on one calendar day. */
  function CountOn(logs: seq<NutLog>, day: int): (n: nat)
    ensures n <= |logs|
    ensures n > 0 <==> day in Days(logs)
  {
    var r := OnDay(logs, day);
    assert |r| > 0 ==> day in Days(logs) by {
      if |r| > 0 {
        assert r[0] in r;
        var i :| 0 <= i < |logs| && logs[i] == r[0];
      }
    }
    assert day in Days(logs) ==> |r| > 0 by {
      if day in Days(logs) {
        var i :| 0 <= i < |logs| && DayOf(logs[i].date) == day;
        assert logs[i] in r;
      }
    }
    |r|
  }

  /** `logs.filter(l => same day)`, in the order of the logs. */
  function OnDay(logs: seq<NutLog>, day: int): (r: seq<NutLog>)
    ensures |r| <= |logs|
    ensures forall l :: l in r <==> l in logs && DayOf(l.date) == day
  {
    if logs == [] then []
    else
      var init := OnDay(logs[..|logs| - 1], day);
      var last := logs[|logs| - 1];
      assert forall l :: l in logs <==> l in logs[..|logs| - 1] || l == last;
      if DayOf(last.date) == day then init + [last] else init
  }

  /** One more log counts on its own day only. */
  lemma OnDaySnoc(logs: seq<NutLog>, l: NutLog, day: int)
    ensures OnDay(logs + [l], day) == OnDay(logs, day) + (if DayOf(l.date) == day then [l] else [])
  {
    assert (logs + [l])[..|logs|] == logs;
  }

  /** One more log adds one to the tally of its own day only. */
  lemma CountOnSnoc(logs: seq<NutLog>, l: NutLog, day: int)
    ensures CountOn(logs + [l], day) == CountOn(logs, day) + (if DayOf(l.date) == day then 1 else 0)
  {
    OnDaySnoc(logs, l, day);
  }

  /** `frequencyStats.max`: tally the logs of each day into `groups`, then
      take the largest tally; 0 with no logs. */
  method FrequencyMax(logs: seq<NutLog>) returns (max: int)
    ensures |logs| == 0 ==> max == 0
    ensures |logs| > 0 ==> exists i :: 0 <= i < |logs| && CountOn(logs, DayOf(logs[i].date)) == max
    ensures forall d :: CountOn(logs, d) <= max
    ensures max <= |logs|
  {
    if |logs| == 0 {
      return 0;
    }
    var groups := Tally(logs);
    DaysCount(logs);
    var best;
    max, best := LargestTally(groups);
    ghost var k :| 0 <= k < |logs| && DayOf(logs[k].date) == best;
  }

  /** The `forEach` loop of `frequencyStats`: `groups[day]` counts the logs
      of each day that has one. */
  method Tally(logs: seq<NutLog>) returns (groups: map<int, nat>)
    ensures groups.Keys == Days(logs)
    ensures forall d :: d in groups ==> groups[d] == CountOn(logs, d)
  {
    groups := map[];
    var i := 0;
    ghost var seen: seq<NutLog> := [];
    while i < |logs|
      invariant 0 <= i <= |logs| && seen == logs[..i]
      invariant groups.Keys == Days(seen)
      invariant forall d :: d in groups ==> groups[d] == CountOn(seen, d)
    {
      var key := DayOf(logs[i].date);
      TallyStep(groups, seen, logs[i]);
      assert logs[..i + 1] == logs[..i] + [logs[i]];
      groups := groups[key := (if key in groups then groups[key] else 0) + 1];
      seen := seen + [logs[i]];
      i := i + 1;
    }
    assert seen == logs;
  }

  /** One round of the tally loop keeps `groups` the per-day count of the
      logs seen so far. */
  lemma TallyStep(groups: map<int, nat>, done: seq<NutLog>, l: NutLog)
    requires groups.Keys == Days(done)
    requires forall d :: d in groups ==> groups[d] == CountOn(done, d)
    ensures var key := DayOf(l.date);
      var g := groups[key := (if key in groups then groups[key] else 0) + 1];
      && g.Keys == Days(done + [l])
      && forall d :: d in g ==> g[d] == CountOn(done + [l], d)
  {
    var key := DayOf(l.date);
    var g := groups[key := (if key in groups then groups[key] else 0) + 1];
    DaysSnoc(done, l);
    forall d | d in g ensures g[d] == CountOn(done + [l], d) {
      CountOnSnoc(done, l, d);
    }
  }

  /** `Math.max(...Object.values(groups))` for a non-empty tally, with the
      day that reaches it. */
  method LargestTally(groups: map<int, nat>) returns (max: int, day: int)
    requires groups != map[]
    ensures day in groups && groups[day] == max
    ensures forall d :: d in groups ==> groups[d] <= max
  {
    var rest := groups.Keys;
    max, day := 0, 0;
    while rest != {}
      invariant rest <= groups.Keys
      invariant 0 <= max
      invariant forall d :: d in groups && d !in rest ==> groups[d] <= max
      invariant rest != groups.Keys ==> day in groups && day !in rest && groups[day] == max
      decreases |rest|
    {
      assert exists d :: d in rest by {
        if forall d :: d !in rest { assert false; }
      }
      var d :| d in rest;
      if rest == groups.Keys || groups[d] > max {
        max, day := groups[d], d;
      }
      rest := rest - {d};
    }
    assert groups.Keys != {} by { var d :| d in groups; }
  }

  /** What the chart measures: sessions or minutes. */
  datatype Metric = Count | Minutes

  /** `getMetricValue`. */
  function MetricValue(filtered: seq<NutLog>, metric: Metric): (v: int)
    ensures filtered == [] ==> v == 0
    ensures (forall i :: 0 <= i < |filtered| ==> filtered[i].duration >= 0) ==> v >= 0
    ensures metric == Count ==> v == |filtered|
  {
    match metric
    case Count => |filtered|
    case Minutes => TotalTime(filtered)
  }

  const WeekDays := 7

  /** The week chart on day `today`: one bar per day from six days ago to
      today, holding that day's sessions or minutes. */
  function WeekChart(logs: seq<NutLog>, today: int, metric: Metric): (bars: seq<int>)
    ensures |bars| == WeekDays
    ensures metric == Count ==> forall i :: 0 <= i < WeekDays ==> bars[i] == CountOn(logs, today - (WeekDays - 1 - i))
    ensures metric == Minutes ==> forall i :: 0 <= i < WeekDays ==> bars[i] == TotalTime(OnDay(logs, today - (WeekDays - 1 - i)))
  {
    var bars := seq(WeekDays, i requires 0 <= i < WeekDays => MetricValue(OnDay(logs, today - (WeekDays - 1 - i)), metric));
    assert forall i :: 0 <= i < WeekDays ==> bars[i] == MetricValue(OnDay(logs, today - (WeekDays - 1 - i)), metric);
    bars
  }

  /** A new log raises the bar of its own day, by one session or by its
      minutes, and no other bar. */
  lemma ChartAfterSave(logs: seq<NutLog>, l: NutLog, today: int, metric: Metric, i: int)
    requires 0 <= i < WeekDays
    ensures WeekChart(logs + [l], today, metric)[i] ==
      WeekChart(logs, today, metric)[i]
      + (if DayOf(l.date) == today - (WeekDays - 1 - i) then MetricValue([l], metric) else 0)
  {
    var day := today - (WeekDays - 1 - i);
    var added := if DayOf(l.date) == day then [l] else [];
    if metric == Count {
      CountOnSnoc(logs, l, day);
    } else {
      OnDaySnoc(logs, l, day);
      TotalTimeAppend(OnDay(logs, day), added);
      assert TotalTime([l]) == l.duration by { assert [l][..0] == []; }
      assert TotalTime(added) == (if DayOf(l.date) == day then MetricValue([l], metric) else 0);
    }
  }

  /** A session saved `offset` days back, today, is counted in the bar
      `offset` places from the right. */
  lemma SavedSessionBar(logs: seq<NutLog>, id: string, now: int, offset: int, minutes: int)
    requires 0 <= offset <= MaxOffset
    ensures var before := WeekChart(logs, DayOf(now), Count);
      var after := WeekChart(logs + [NutLog(id, SessionDate(now, offset), minutes)], DayOf(now), Count);
      && after[WeekDays - 1 - offset] == before[WeekDays - 1 - offset] + 1
      && forall i :: 0 <= i < WeekDays && i != WeekDays - 1 - offset ==> after[i] == before[i]
  {
    var l := NutLog(id, SessionDate(now, offset), minutes);
    forall i | 0 <= i < WeekDays
      ensures WeekChart(logs + [l], DayOf(now), Count)[i] ==
        WeekChart(logs, DayOf(now), Count)[i] + (if i == WeekDays - 1 - offset then 1 else 0)
    {
      ChartAfterSave(logs, l, DayOf(now), Count, i);
    }
  }

  /** `maxValue`: the tallest bar, and at least 1. */
  function MaxValue(bars: seq<int>): (m: int)
    ensures m >= 1
    ensures forall i :: 0 <= i < |bars| ==> bars[i] <= m
    ensures m == 1 || exists i :: 0 <= i < |bars| && bars[i] == m
  {
    if bars == [] then 1
    else
      var rest := MaxValue(bars[1..]);
      assert forall i :: 1 <= i < |bars| ==> bars[i] == bars[1..][i - 1];
      Max(bars[0], rest)
  }

  // ---------------------------------------------------------------------
  // Advice

  /** The four pieces of advice, from the youngest age band to the oldest. */
  const Advice := [
    "Recommended: 3-5 times per week. Focus on hormonal balance.",
    "Recommended: 3-4 times per week. Optimal for high metabolism.",
    "Recommended: 2-3 times per week. Maintain prostate health.",
    "Recommended: 1-2 times per week. Prioritize energy conservation."]

  /** How many of the age limits 20, 30 and 40 an age has reached. */
  function AgeBand(age: int): (band: nat)
    ensures band < |Advice|
  {
    (if age >= 20 then 1 else 0) + (if age >= 30 then 1 else 0) + (if age >= 40 then 1 else 0)
  }

  /** An older user never gets a lower band. */
  lemma AgeBandMonotone(a: int, b: int)
    requires a <= b
    ensures AgeBand(a) <= AgeBand(b)
  {
  }

  /** `recommendation` for the age `parseInt` made of the profile; `NaN`
      fails every comparison and gets the last piece of advice. */
  function Recommendation(age: Option<int>): (text: string)
    ensures age.None? ==> text == Advice[3]
    ensures age.Some? ==> text == Advice[AgeBand(age.value)]
  {
    if age.Some? && age.value < 20 then Advice[0]
    else if age.Some? && age.value < 30 then Advice[1]
    else if age.Some? && age.value < 40 then Advice[2]
    else Advice[3]
  }

  /** The profile's default age, "25", gets the advice of the 20-29 band. */
  lemma DefaultProfileAdvice()
    ensures Recommendation(ParseInt("25")) == Advice[1]
  {
    ParseIntShow(25, []);
    assert Digits.Show(25) + [] == "25" by {
      assert Digits.Show(25) == Digits.Show(2) + [Digits.DigitChar(5)];
    }
  }

  /** The frequency word of the analysis card, for the number of logs. */
  function FrequencyLabel(totalCount: int): (word: string)
    ensures word == "above" <==> totalCount > 15
    ensures word == "within" <==> 5 < totalCount <= 15
    ensures word == "below" <==> totalCount <= 5
  {
    if totalCount > 15 then "above" else if totalCount > 5 then "within" else "below"
  }

  // ---------------------------------------------------------------------
  // History

  /** Newest first. */
  predicate NewestFirst(s: seq<NutLog>)
  {
    forall i, j :: 0 <= i < j < |s| ==> s[i].date >= s[j].date
  }

  /** Put `x` in front of the first log that is not newer than it. */
  function Insert(x: NutLog, s: seq<NutLog>): (r: seq<NutLog>)
    ensures |r| == |s| + 1
    ensures forall y :: y in r <==> y == x || y in s
  {
    if s == [] || x.date >= s[0].date then [x] + s else [s[0]] + Insert(x, s[1..])
  }

  /** Inserting adds exactly `x`. */
  lemma {:induction false} InsertAdds(x: NutLog, s: seq<NutLog>)
    ensures multiset(Insert(x, s)) == multiset(s) + multiset{x}
  {
    if s != [] && x.date < s[0].date {
      InsertAdds(x, s[1..]);
      assert s == [s[0]] + s[1..];
    }
  }

  /** Inserting into a newest-first list keeps it newest first. */
  lemma {:induction false} InsertKeepsOrder(x: NutLog, s: seq<NutLog>)
    requires NewestFirst(s)
    ensures NewestFirst(Insert(x, s))
  {
    if s == [] || x.date >= s[0].date {
      var r := [x] + s;
      forall i, j | 0 <= i < j < |r| ensures r[i].date >= r[j].date {
        if i == 0 {
          assert r[j] == s[j - 1];
          if j > 1 { assert s[0].date >= s[j - 1].date; }
        } else {
          assert r[i] == s[i - 1] && r[j] == s[j - 1];
        }
      }
    } else {
      var tail := s[1..];
      assert NewestFirst(tail) by {
        forall i, j | 0 <= i < j < |tail| ensures tail[i].date >= tail[j].date {
          assert tail[i] == s[i + 1] && tail[j] == s[j + 1];
        }
      }
      InsertKeepsOrder(x, tail);
      InsertAdds(x, tail);
      var t := Insert(x, tail);
      var r := [s[0]] + t;
      forall j | 0 <= j < |t| ensures s[0].date >= t[j].date {
        assert t[j] in multiset(t);
        if t[j] != x {
          assert t[j] in multiset(tail);
          var k :| 0 <= k < |tail| && tail[k] == t[j];
          assert s[k + 1] == t[j];
        }
      }
      forall i, j | 0 <= i < j < |r| ensures r[i].date >= r[j].date {
        assert r[j] == t[j - 1];
        if i > 0 { assert r[i] == t[i - 1]; }
      }
      assert r == Insert(x, s);
    }
  }

  /** `sortedLogs`: the logs newest first, by insertion; logs with the same
      date keep their order, as with JavaScript's stable `sort`. */
  function SortedLogs(logs: seq<NutLog>): (sorted: seq<NutLog>)
    ensures |sorted| == |logs|
    ensures forall l :: l in sorted <==> l in logs
  {
    if logs == [] then [] else Insert(logs[0], SortedLogs(logs[1..]))
  }

  /** `sortedLogs` is newest first and holds exactly the logs. */
  lemma {:induction false} SortedLogsSorts(logs: seq<NutLog>)
    ensures NewestFirst(SortedLogs(logs))
    ensures multiset(SortedLogs(logs)) == multiset(logs)
  {
    if logs != [] {
      SortedLogsSorts(logs[1..]);
      InsertKeepsOrder(logs[0], SortedLogs(logs[1..]));
      InsertAdds(logs[0], SortedLogs(logs[1..]));
      assert logs == [logs[0]] + logs[1..];
    }
  }

  /** The RECENT ACTIVITY list: a placeholder with no logs, otherwise the
      first ten of the sorted logs. */
  datatype History = NoLogs | Recent(rows: seq<NutLog>)

  function HistoryOf(logs: seq<NutLog>): (h: History)
    ensures h == NoLogs <==> |logs| == 0
    ensures h.Recent? ==> |h.rows| == (if |logs| < HistoryLength then |logs| else HistoryLength)
  {
    var sorted := SortedLogs(logs);
    SortedLogsSorts(logs);
    assert |sorted| == |logs| by { assert |multiset(sorted)| == |multiset(logs)|; }
    if |sorted| == 0 then NoLogs
    else Recent(sorted[..if |sorted| < HistoryLength then |sorted| else HistoryLength])
  }

  /** The first `k` logs of a newest-first list are newest first, and none
      after them is newer than one of them. */
  lemma FirstAreNewest(sorted: seq<NutLog>, k: int)
    requires NewestFirst(sorted) && 0 <= k <= |sorted|
    ensures NewestFirst(sorted[..k])
    ensures forall l, r :: l in sorted[k..] && r in sorted[..k] ==> l.date <= r.date
  {
    var rows, rest := sorted[..k], sorted[k..];
    forall i, j | 0 <= i < j < |rows| ensures rows[i].date >= rows[j].date {
      assert rows[i] == sorted[i] && rows[j] == sorted[j];
    }
    forall l, r | l in rest && r in rows ensures l.date <= r.date {
      var j :| 0 <= j < |rest| && rest[j] == l;
      var i :| 0 <= i < |rows| && rows[i] == r;
      assert sorted[i] == r && sorted[k + j] == l;
    }
  }

  /** The history shows logs newest first, each at most as often as it was
      logged. */
  lemma HistoryNewestFirst(logs: seq<NutLog>)
    ensures var h := HistoryOf(logs);
      h.Recent? ==> NewestFirst(h.rows) && multiset(h.rows) <= multiset(logs)
  {
    var sorted := SortedLogs(logs);
    SortedLogsSorts(logs);
    assert |sorted| == |logs| by { assert |multiset(sorted)| == |multiset(logs)|; }
    if |sorted| > 0 {
      var k := if |sorted| < HistoryLength then |sorted| else HistoryLength;
      var rows, rest := sorted[..k], sorted[k..];
      assert HistoryOf(logs) == Recent(rows);
      assert sorted == rows + rest;
      assert multiset(sorted) == multiset(rows) + multiset(rest);
      FirstAreNewest(sorted, k);
    }
  }

  /** No log the history leaves out is newer than one it shows. */
  lemma HistoryKeepsNewest(logs: seq<NutLog>)
    ensures var h := HistoryOf(logs);
      h.Recent? ==> forall l, r :: l in multiset(logs) - multiset(h.rows) && r in h.rows ==> l.date <= r.date
  {
    var sorted := SortedLogs(logs);
    SortedLogsSorts(logs);
    assert |sorted| == |logs| by { assert |multiset(sorted)| == |multiset(logs)|; }
    if |sorted| > 0 {
      var k := if |sorted| < HistoryLength then |sorted| else HistoryLength;
      var rows, rest := sorted[..k], sorted[k..];
      assert HistoryOf(logs) == Recent(rows);
      assert sorted == rows + rest;
      assert multiset(logs) - multiset(rows) == multiset(rest);
      FirstAreNewest(sorted, k);
      forall l, r | l in multiset(logs) - multiset(rows) && r in rows ensures l.date <= r.date {
        assert l in rest;
      }
    }
  }
}
