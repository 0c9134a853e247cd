/** The interval workout timer (`src/pages/WorkoutTimer.tsx`): five pieces of
    state stepped through 40-second work and 20-second rest phases over a
    list of exercises, telling its host when the list is finished and each
    time another whole minute has elapsed.

    The React effects become explicit steps: one firing of the one-second
    interval is a tick, and the effect that runs when the time left is zero
    while running is a transition. The callbacks become events appended to a
    log as each step makes them. The component itself runs both effects in
    the commit after the tick that empties the last rest phase, the zero-time
    effect first, so there `onComplete()` comes before the last minute's
    `onProgressUpdate(1)`; here that minute is logged by the tick, before the
    transition logs the completion. */
module WorkoutTimer {
  import Exercises
  import Digits

  const WorkSeconds := 40
  const RestSeconds := 20
  const SecondsPerMinute := 60

  datatype Phase = Work | Rest

  /** The full length of a phase (`totalDuration`). */
  function Duration(p: Phase): nat
  {
    if p == Work then WorkSeconds else RestSeconds
  }

  /** A call the timer makes to its host: `onComplete()` or
      `onProgressUpdate(minutes)`. */
  datatype Event = Completed | ProgressUpdate(minutes: int)

  /** The timer's state: `currentExerciseIndex`, `phase`, `timeRemaining`,
      `isRunning` and `totalSecondsCompleted`. */
  datatype Snapshot = Snapshot(index: int, phase: Phase, remaining: int, running: bool, total: int)

  /** A step's new state and the calls it makes, in order. */
  datatype Outcome = Outcome(after: Snapshot, events: seq<Event>)

  /** The state every reachable state keeps for a list of `n` exercises: the
      index points into the list (or is 0 for an empty one), and the time left
      lies between zero and the length of the current phase. */
  predicate WellFormed(s: Snapshot, n: nat)
  {
    && 0 <= s.index && (s.index == 0 || s.index < n)
    && 0 <= s.remaining <= Duration(s.phase)
    && 0 <= s.total
  }

  /** The state the timer starts in and returns to on reset. */
  const Initial := Snapshot(0, Work, WorkSeconds, false, 0)

  /** The minutes credited to the host by the progress calls among `events`. */
  function Credits(events: seq<Event>): (minutes: int)
    ensures (forall i :: 0 <= i < |events| ==> events[i] == Completed || events[i] == ProgressUpdate(1)) ==>
      0 <= minutes <= |events|
  {
    if events == [] then 0
    else Credits(events[..|events| - 1]) + (if events[|events| - 1].ProgressUpdate? then events[|events| - 1].minutes else 0)
  }

  /** The number of completion signals among `events`. */
  function Completions(events: seq<Event>): (k: nat)
    ensures k <= |events|
  {
    if events == [] then 0
    else Completions(events[..|events| - 1]) + (if events[|events| - 1].Completed? then 1 else 0)
  }

  lemma {:induction false} CreditsAppend(a: seq<Event>, b: seq<Event>)
    ensures Credits(a + b) == Credits(a) + Credits(b)
    ensures Completions(a + b) == Completions(a) + Completions(b)
    decreases |b|
  {
    if b == [] {
      assert a + b == a;
    } else {
      var b' := b[..|b| - 1];
      assert (a + b)[..|a + b| - 1] == a + b';
      CreditsAppend(a, b');
    }
  }

  /** One firing of the one-second interval, which is armed only while the
      timer runs with time left: one second less to go, one more second
      done, and a one-minute credit when the total reaches a multiple of 60.
      Nothing else changes. */
  function AfterTick(s: Snapshot): (o: Outcome)
    requires s.running && s.remaining > 0
    ensures o.after.remaining == s.remaining - 1 && o.after.total == s.total + 1
    ensures o.after.index == s.index && o.after.phase == s.phase && o.after.running
    ensures 0 <= s.total ==> Credits(o.events) == o.after.total / SecondsPerMinute - s.total / SecondsPerMinute
    ensures o.events == [] || o.events == [ProgressUpdate(1)]
  {
    var t := s.(remaining := s.remaining - 1, total := s.total + 1);
    Outcome(t, if t.total > 0 && t.total % SecondsPerMinute == 0 then [ProgressUpdate(1)] else [])
  }

  /** `nextExercise`: move on to the next exercise's work phase, or, on the
      last exercise, signal completion and stop, leaving index, phase and
      time left as they were. It never enters the rest phase and never
      counts a second. */
  function AfterNextExercise(s: Snapshot, n: nat): (o: Outcome)
    ensures s.index < n - 1 ==>
      o.events == [] && o.after == Snapshot(s.index + 1, Work, WorkSeconds, s.running, s.total)
    ensures s.index >= n - 1 ==>
      o.events == [Completed] && !o.after.running && o.after == s.(running := false)
    ensures o.after.phase == Rest ==> s.phase == Rest
    ensures o.after.total == s.total && Credits(o.events) == 0
  {
    if s.index < n - 1 then
      Outcome(s.(index := s.index + 1, phase := Work, remaining := WorkSeconds), [])
    else
      Outcome(s.(running := false), [Completed])
  }

  /** The effect taken when the time left is zero while running: from work
      into a 20-second rest on the same exercise, from rest on to the next
      exercise (or completion). */
  function AfterTransition(s: Snapshot, n: nat): (o: Outcome)
    requires s.running && s.remaining == 0
    ensures s.phase == Work ==>
      o.events == [] && o.after == s.(phase := Rest, remaining := RestSeconds)
    ensures s.phase == Rest ==> o == AfterNextExercise(s, n)
    ensures o.after.total == s.total && Credits(o.events) == 0
  {
    if s.phase == Work then Outcome(s.(phase := Rest, remaining := RestSeconds), [])
    else AfterNextExercise(s, n)
  }

  /** `toggleTimer` flips only the running flag. */
  function AfterToggle(s: Snapshot): (o: Outcome)
    ensures o.after.running == !s.running && o.after.(running := s.running) == s
    ensures o.events == []
  {
    Outcome(s.(running := !s.running), [])
  }

  /** `resetTimer` returns to the initial state from any state; since the
      total becomes zero, the minute check makes no call. */
  function AfterReset(s: Snapshot): (o: Outcome)
    ensures o.after == Initial && o.events == []
  {
    Outcome(Initial, [])
  }

  /** What can happen to a timer: the scheduler fires (the interval ticks,
      or the zero-time effect runs), or the user presses a button. */
  datatype Input = Fire | Toggle | Skip | Reset

  /** One input. The scheduler does nothing while paused. */
  function Apply(s: Snapshot, n: nat, i: Input): (o: Outcome)
    ensures i == Reset ==> o.after == Initial
    ensures i != Reset ==> s.total <= o.after.total
    ensures i == Fire && !s.running ==> o == Outcome(s, [])
    ensures |o.events| <= 1
  {
    match i
    case Fire =>
      if s.running && s.remaining > 0 then AfterTick(s)
      else if s.running && s.remaining == 0 then AfterTransition(s, n)
      else Outcome(s, [])
    case Toggle => AfterToggle(s)
    case Skip => AfterNextExercise(s, n)
    case Reset => AfterReset(s)
  }

  /** A sequence of inputs, with every call made along the way. */
  function Replay(s: Snapshot, n: nat, ins: seq<Input>): (o: Outcome)
    ensures |o.events| <= |ins|
    ensures Reset !in ins ==> s.total <= o.after.total
    decreases |ins|
  {
    if ins == [] then Outcome(s, [])
    else
      var first := Apply(s, n, ins[0]);
      var rest := Replay(first.after, n, ins[1..]);
      Outcome(rest.after, first.events + rest.events)
  }

  /** `k` consecutive firings of the scheduler. */
  function Seconds(k: nat): (ins: seq<Input>)
    ensures |ins| == k && forall i :: 0 <= i < k ==> ins[i] == Fire
  {
    seq(k, _ => Fire)
  }

  /** Every input keeps the state well formed. */
  lemma ApplyKeepsWellFormed(s: Snapshot, n: nat, i: Input)
    requires WellFormed(s, n)
    ensures WellFormed(Apply(s, n, i).after, n)
  {
  }

  /** Every sequence of inputs keeps the state well formed. */
  lemma {:induction false} ReplayKeepsWellFormed(s: Snapshot, n: nat, ins: seq<Input>)
    requires WellFormed(s, n)
    ensures WellFormed(Replay(s, n, ins).after, n)
    decreases |ins|
  {
    if ins != [] {
      ApplyKeepsWellFormed(s, n, ins[0]);
      ReplayKeepsWellFormed(Apply(s, n, ins[0]).after, n, ins[1..]);
    }
  }

  /** Running two input sequences one after the other. */
  lemma {:induction false} ReplayAppend(s: Snapshot, n: nat, a: seq<Input>, b: seq<Input>)
    ensures var first := Replay(s, n, a);
      var second := Replay(first.after, n, b);
      Replay(s, n, a + b) == Outcome(second.after, first.events + second.events)
    decreases |a|
  {
    if a == [] {
      assert a + b == b;
    } else {
      var first := Apply(s, n, a[0]);
      assert (a + b)[0] == a[0] && (a + b)[1..] == a[1..] + b;
      ReplayAppend(first.after, n, a[1..], b);
      var middle := Replay(first.after, n, a[1..]);
      var last := Replay(middle.after, n, b);
      var rest := Replay(first.after, n, a[1..] + b);
      calc {
        Replay(s, n, a + b);
        Outcome(rest.after, first.events + rest.events);
        Outcome(last.after, first.events + (middle.events + last.events));
        { assert first.events + (middle.events + last.events) == (first.events + middle.events) + last.events; }
        Outcome(last.after, (first.events + middle.events) + last.events);
      }
    }
  }

  /** Between resets, the one-minute credits the host receives are exactly
      the whole minutes the total has crossed, whatever the phases, skips
      and pauses in between, and the total never goes down. */
  lemma {:induction false} ReplayCredits(s: Snapshot, n: nat, ins: seq<Input>)
    requires WellFormed(s, n) && Reset !in ins
    ensures var o := Replay(s, n, ins);
      && s.total <= o.after.total
      && Credits(o.events) == o.after.total / SecondsPerMinute - s.total / SecondsPerMinute
    decreases |ins|
  {
    if ins != [] {
      var first := Apply(s, n, ins[0]);
      ApplyKeepsWellFormed(s, n, ins[0]);
      assert Reset !in ins[1..];
      ReplayCredits(first.after, n, ins[1..]);
      CreditsAppend(first.events, Replay(first.after, n, ins[1..]).events);
    }
  }

  /** Since the last reset, the number of one-minute credits equals the
      total seconds divided by 60. */
  lemma CreditsSinceLastReset(s: Snapshot, n: nat, before: seq<Input>, since: seq<Input>)
    requires WellFormed(s, n) && Reset !in since
    ensures var head := Replay(s, n, before + [Reset]);
      var all := Replay(s, n, before + [Reset] + since);
      var tail := Replay(Initial, n, since);
      && all.events == head.events + tail.events
      && Credits(tail.events) == all.after.total / SecondsPerMinute
  {
    var head := Replay(s, n, before + [Reset]);
    ReplayAppend(s, n, before, [Reset]);
    assert head.after == Initial;
    ReplayAppend(s, n, before + [Reset], since);
    ReplayCredits(Initial, n, since);
  }

  /** While running, `k` firings with at least `k` seconds left count down
      `k` seconds and add `k` to the total. */
  lemma {:induction false} CountDown(s: Snapshot, n: nat, k: nat)
    requires s.running && k <= s.remaining
    ensures Replay(s, n, Seconds(k)).after == s.(remaining := s.remaining - k, total := s.total + k)
    decreases k
  {
    if k > 0 {
      assert Seconds(k)[0] == Fire && Seconds(k)[1..] == Seconds(k - 1);
      CountDown(Apply(s, n, Fire).after, n, k - 1);
    }
  }

  /** A running phase runs out after the seconds it has left, and the next
      firing takes the transition out of it; counting down signals nothing. */
  lemma PhaseRunsOut(s: Snapshot, n: nat)
    requires s.running && 0 <= s.remaining
    ensures var ended := s.(remaining := 0, total := s.total + s.remaining);
      var o := Replay(s, n, Seconds(s.remaining) + [Fire]);
      o.after == AfterTransition(ended, n).after
      && Completions(o.events) == Completions(AfterTransition(ended, n).events)
  {
    var k := s.remaining;
    var counted := Replay(s, n, Seconds(k));
    CountDown(s, n, k);
    CountDownQuiet(s, n, k);
    var ended := s.(remaining := 0, total := s.total + k);
    assert counted.after == ended;
    var last := AfterTransition(ended, n);
    ReplayOne(ended, n, Fire);
    ReplayAppend(s, n, Seconds(k), [Fire]);
    assert Replay(s, n, Seconds(k) + [Fire]) == Outcome(last.after, counted.events + last.events);
    CreditsAppend(counted.events, last.events);
  }

  /** Replaying a single input is applying it. */
  lemma ReplayOne(s: Snapshot, n: nat, i: Input)
    ensures Replay(s, n, [i]) == Apply(s, n, i)
  {
    assert [i][1..] == [];
    assert Apply(s, n, i).events + [] == Apply(s, n, i).events;
  }

  /** With two exercises, started from the initial state: forty seconds of
      work and a transition give the first exercise's rest phase; twenty
      seconds more and a transition give the second exercise's work phase,
      one minute in and with one minute credited. */
  lemma TwoExerciseSchedule(started: Snapshot, n: nat)
    requires started == Initial.(running := true) && n == 2
    ensures Replay(started, n, Seconds(40) + [Fire]).after == Snapshot(0, Rest, 20, true, 40)
    ensures var o := Replay(started, n, Seconds(40) + [Fire] + Seconds(20) + [Fire]);
      o.after == Snapshot(1, Work, 40, true, 60) && Credits(o.events) == 1
  {
    var resting := Snapshot(0, Rest, 20, true, 40);
    assert Replay(started, n, Seconds(40) + [Fire]).after == resting by {
      PhaseRunsOut(started, n);
    }
    assert Replay(resting, n, Seconds(20) + [Fire]).after == Snapshot(1, Work, 40, true, 60) by {
      PhaseRunsOut(resting, n);
    }
    var ins := Seconds(40) + [Fire] + Seconds(20) + [Fire];
    assert Replay(started, n, ins).after == Snapshot(1, Work, 40, true, 60) by {
      ReplayAppend(started, n, Seconds(40) + [Fire], Seconds(20) + [Fire]);
      assert Seconds(40) + [Fire] + (Seconds(20) + [Fire]) == ins;
    }
    ReplayCredits(started, n, ins);
  }

  /** With one exercise: a minute of work and rest plus the two transitions
      signals completion exactly once and stops the timer where it stood;
      after that the scheduler changes nothing. */
  lemma SingleExerciseCompletes(started: Snapshot, n: nat)
    requires started == Initial.(running := true) && n == 1
    ensures var o := Replay(started, n, Seconds(40) + [Fire] + Seconds(20) + [Fire]);
      && o.after == Snapshot(0, Rest, 0, false, 60)
      && Completions(o.events) == 1
      && Replay(o.after, n, [Fire]) == Outcome(o.after, [])
  {
    var resting := Snapshot(0, Rest, 20, true, 40);
    var first := Replay(started, n, Seconds(40) + [Fire]);
    assert first.after == resting && Completions(first.events) == 0 by {
      PhaseRunsOut(started, n);
    }
    var second := Replay(resting, n, Seconds(20) + [Fire]);
    assert second.after == Snapshot(0, Rest, 0, false, 60) && Completions(second.events) == 1 by {
      PhaseRunsOut(resting, n);
      var ended := Snapshot(0, Rest, 0, true, 60);
      assert AfterTransition(ended, n) == Outcome(ended.(running := false), [Completed]);
      assert Completions([Completed]) == 1 by { assert [Completed][..0] == []; }
    }
    var ins := Seconds(40) + [Fire] + Seconds(20) + [Fire];
    assert Replay(started, n, ins) == Outcome(second.after, first.events + second.events) by {
      ReplayAppend(started, n, Seconds(40) + [Fire], Seconds(20) + [Fire]);
      assert Seconds(40) + [Fire] + (Seconds(20) + [Fire]) == ins;
    }
    CreditsAppend(first.events, second.events);
    ReplayOne(second.after, n, Fire);
  }

  /** Completion by the last rest phase running out leaves the timer there
      with no time left; pressing start again takes the transition once more and signals
      completion a second time. */
  lemma CompletionRepeatsOnRestart(s: Snapshot, n: nat)
    requires n >= 1 && s == Snapshot(n - 1, Rest, 0, false, s.total) && 0 <= s.total
    ensures Replay(s, n, [Toggle, Fire]) == Outcome(s, [Completed])
  {
    assert [Toggle, Fire][1..] == [Fire];
  }

  /** On the last exercise (or an empty list), skip signals completion
      whether or not the timer runs, and a second skip signals it again,
      leaving the timer stopped where it stood. */
  lemma SkipRepeatsCompletion(s: Snapshot, n: nat)
    requires s.index >= n - 1
    ensures Replay(s, n, [Skip, Skip]) == Outcome(s.(running := false), [Completed, Completed])
  {
    assert [Skip, Skip][1..] == [Skip];
    ReplayOne(s.(running := false), n, Skip);
  }

  /** While paused, the scheduler changes nothing and makes no call. */
  lemma {:induction false} PausedIsInert(s: Snapshot, n: nat, k: nat)
    requires !s.running
    ensures Replay(s, n, Seconds(k)) == Outcome(s, [])
    decreases k
  {
    if k > 0 {
      assert Seconds(k)[0] == Fire && Seconds(k)[1..] == Seconds(k - 1);
      PausedIsInert(s, n, k - 1);
    }
  }

  /** `k` firings are one firing followed by the other `k - 1`. */
  lemma FirstFiring(s: Snapshot, n: nat, k: nat)
    requires k > 0
    ensures var first := Apply(s, n, Fire);
      var rest := Replay(first.after, n, Seconds(k - 1));
      Replay(s, n, Seconds(k)) == Outcome(rest.after, first.events + rest.events)
  {
    assert Seconds(k)[0] == Fire && Seconds(k)[1..] == Seconds(k - 1);
  }

  /** One firing signals completion at most once, and stops the timer when
      it does. */
  lemma FiringStopsOnCompletion(s: Snapshot, n: nat)
    ensures var o := Apply(s, n, Fire);
      Completions(o.events) <= 1 && (Completions(o.events) == 1 ==> !o.after.running)
  {
    var o := Apply(s, n, Fire);
    assert o.events == [] || o.events == [ProgressUpdate(1)] || (o.events == [Completed] && !o.after.running);
    assert [Completed][..0] == [] && [ProgressUpdate(1)][..0] == [];
  }

  /** In any uninterrupted run of the scheduler, from any state and for any
      number of exercises, completion is signalled at most once, and once it
      has been signalled the timer is stopped. */
  lemma {:induction false} CompletesAtMostOnce(s: Snapshot, n: nat, k: nat)
    ensures var o := Replay(s, n, Seconds(k));
      Completions(o.events) <= 1 && (Completions(o.events) == 1 ==> !o.after.running)
    decreases k
  {
    if k > 0 {
      var first := Apply(s, n, Fire);
      var rest := Replay(first.after, n, Seconds(k - 1));
      FirstFiring(s, n, k);
      CreditsAppend(first.events, rest.events);
      FiringStopsOnCompletion(s, n);
      if Completions(first.events) == 1 {
        PausedIsInert(first.after, n, k - 1);
        assert rest == Outcome(first.after, []);
      } else {
        CompletesAtMostOnce(first.after, n, k - 1);
      }
    }
  }

  /** Counting down never signals completion. */
  lemma {:induction false} CountDownQuiet(s: Snapshot, n: nat, k: nat)
    requires s.running && k <= s.remaining
    ensures Completions(Replay(s, n, Seconds(k)).events) == 0
    decreases k
  {
    if k > 0 {
      var first := Apply(s, n, Fire);
      assert first == AfterTick(s);
      assert first.after.running && k - 1 <= first.after.remaining;
      var rest := Replay(first.after, n, Seconds(k - 1));
      assert Completions(first.events) == 0 by {
        assert first.events == [] || first.events == [ProgressUpdate(1)];
        assert [ProgressUpdate(1)][..0] == [];
      }
      CountDownQuiet(first.after, n, k - 1);
      FirstFiring(s, n, k);
      CreditsAppend(first.events, rest.events);
    }
  }

  /** `formatTime`: the minutes and the seconds of a time, each written with
      at least two digits, joined by a colon. */
  function FormatTime(seconds: nat): (r: string)
    ensures |r| >= 5 && r[|r| - 3] == ':'
    ensures seconds < 100 * SecondsPerMinute ==> |r| == 5
  {
    Field(seconds / SecondsPerMinute) + ":" + Field(seconds % SecondsPerMinute)
  }

  /** The text before the colon of `FormatTime(seconds)` is a digit string
      that reads back as the whole minutes of `seconds`. */
  lemma FormatTimeMinutes(seconds: nat)
    ensures var r := FormatTime(seconds);
      && Digits.AllIn(r[..|r| - 3], 10)
      && Digits.ValueIn(r[..|r| - 3], 10) == seconds / SecondsPerMinute
  {
    ClockSplit(seconds);
  }

  /** The two characters after the colon read back as the leftover seconds,
      always below sixty. */
  lemma FormatTimeSeconds(seconds: nat)
    ensures var r := FormatTime(seconds);
      && Digits.AllIn(r[|r| - 2..], 10)
      && Digits.ValueIn(r[|r| - 2..], 10) == seconds % SecondsPerMinute
  {
    ClockSplit(seconds);
  }

  /** One field of the clock text: a number written with at least two digits. */
  function Field(n: nat): (f: string)
    ensures Digits.AllIn(f, 10) && Digits.ValueIn(f, 10) == n
    ensures n < 100 ==> |f| == 2
  {
    Digits.PadStart2(Digits.Show(n))
  }

  /** Cutting the clock text at the colon gives back its two fields. */
  lemma ClockSplit(seconds: nat)
    ensures var r := FormatTime(seconds);
      && r[..|r| - 3] == Field(seconds / SecondsPerMinute)
      && r[|r| - 2..] == Field(seconds % SecondsPerMinute)
  {
    var a, b := Field(seconds / SecondsPerMinute), Field(seconds % SecondsPerMinute);
    assert FormatTime(seconds) == a + ":" + b;
    Cut(a, b);
  }

  /** `a + ":" + b` with a two-character `b`, cut around the colon. */
  lemma Cut(a: string, b: string)
    requires |b| == 2
    ensures var r := a + ":" + b; r[..|r| - 3] == a && r[|r| - 2..] == b
  {
    var r := a + ":" + b;
    assert r[..|r| - 3] == a;
    assert r[|r| - 2..] == b;
  }

  /** One timer on the screen, for the list of exercises it was given. */
  class Timer {
    const exercises: seq<Exercises.Exercise>
    var index: int
    var phase: Phase
    var remaining: int
    var running: bool
    var total: int
    /** The calls made to the host so far, oldest first. */
    var events: seq<Event>
    /** How many calls had been made at the last reset. */
    ghost var resetMark: nat

    function Current(): Snapshot
      reads this
    {
      Snapshot(index, phase, remaining, running, total)
    }

    /** The fields are in range, and since the last reset the host has been
        credited one minute per 60 seconds of the total. */
    ghost predicate Valid()
      reads this
    {
      && WellFormed(Current(), |exercises|)
      && resetMark <= |events|
      && Credits(events[resetMark..]) == total / SecondsPerMinute
    }

    constructor (exercises: seq<Exercises.Exercise>)
      ensures Valid() && this.exercises == exercises
      ensures Current() == Initial && events == []
    {
      this.exercises := exercises;
      index, phase, remaining, running, total := 0, Work, WorkSeconds, false, 0;
      events := [];
      resetMark := 0;
    }

    /** One firing of the interval. */
    method Tick()
      requires Valid() && running && remaining > 0
      modifies this
      ensures Valid() && resetMark == old(resetMark)
      ensures Current() == AfterTick(old(Current())).after
      ensures events == old(events) + AfterTick(old(Current())).events
    {
      ghost var before := Current();
      ghost var step := AfterTick(before);
      remaining := remaining - 1;
      total := total + 1;
      if total > 0 && total % SecondsPerMinute == 0 {
        events := events + [ProgressUpdate(1)];
      }
      assert Current() == step.after;
      assert events == old(events) + step.events;
      assert events[resetMark..] == old(events)[resetMark..] + step.events;
      CreditsAppend(old(events)[resetMark..], step.events);
      assert Credits(step.events) == total / SecondsPerMinute - before.total / SecondsPerMinute;
    }

    /** `nextExercise`, shared by the transition out of a rest phase and the
        skip button. */
    method NextExercise()
      requires Valid()
      modifies this
      ensures Valid() && resetMark == old(resetMark)
      ensures Current() == AfterNextExercise(old(Current()), |exercises|).after
      ensures events == old(events) + AfterNextExercise(old(Current()), |exercises|).events
    {
      ghost var before := Current();
      if index < |exercises| - 1 {
        index := index + 1;
        phase := Work;
        remaining := WorkSeconds;
        assert Current() == AfterNextExercise(before, |exercises|).after;
      } else {
        events := events + [Completed];
        running := false;
        assert Current() == AfterNextExercise(before, |exercises|).after;
        assert events[resetMark..] == old(events)[resetMark..] + [Completed];
        CreditsAppend(old(events)[resetMark..], [Completed]);
        assert Credits([Completed]) == 0 by { assert [Completed][..0] == []; }
      }
    }

    /** The effect taken when the time left is zero while running. */
    method Transition()
      requires Valid() && running && remaining == 0
      modifies this
      ensures Valid() && resetMark == old(resetMark)
      ensures Current() == AfterTransition(old(Current()), |exercises|).after
      ensures events == old(events) + AfterTransition(old(Current()), |exercises|).events
    {
      if phase == Work {
        phase := Rest;
        remaining := RestSeconds;
      } else {
        NextExercise();
      }
    }

    /** The start/pause button. */
    method Toggle()
      requires Valid()
      modifies this
      ensures Valid() && resetMark == old(resetMark)
      ensures Current() == AfterToggle(old(Current())).after && events == old(events)
    {
      running := !running;
    }

    /** The skip button: `nextExercise` whatever the phase. */
    method Skip()
      requires Valid()
      modifies this
      ensures Valid() && resetMark == old(resetMark)
      ensures Current() == AfterNextExercise(old(Current()), |exercises|).after
      ensures events == old(events) + AfterNextExercise(old(Current()), |exercises|).events
    {
      NextExercise();
    }

    /** The reset button. */
    method Reset()
      requires Valid()
      modifies this
      ensures Valid() && resetMark == |events|
      ensures Current() == Initial && events == old(events)
    {
      running := false;
      index := 0;
      phase := Work;
      remaining := WorkSeconds;
      total := 0;
      resetMark := |events|;
    }

    /** The SESSION TIME line: the whole minutes of the total, a colon and
        the leftover seconds, each field reading back as a number. */
    function SessionTime(): (text: string)
      reads this
      requires 0 <= total
      ensures |text| >= 5 && text[|text| - 3] == ':'
      ensures text[..|text| - 3] == Field(total / SecondsPerMinute)
      ensures text[|text| - 2..] == Field(total % SecondsPerMinute)
    {
      var t: nat := total;
      ClockSplit(t);
      FormatTime(t)
    }
  }
}
