/**
 * The work/break timer. Its state is seven global variables (the remaining minutes and seconds,
 * whether it ticks, whether a break is on, two minute accumulators and the session counter), two
 * number inputs for the phase lengths, and three storage keys. It changes only through
 * `toggleTimer`, `updateTimer` (one tick), `resetTimer`, `saveSettings`, `loadTimerSettings` and
 * `validateTimerInputs`.
 *
 * `Clock` and the functions `Step`, `Toggle` and `Reset` state what one handler does to the seven
 * variables; the class `Timer` holds the variables and its methods are proved to follow those
 * functions. The lemmas about the functions say what a tick, a phase and a whole cycle do.
 */
module Pomodoro {
  import opened Wrappers

  /** The value of an `<input type="number">` holding a phase length in minutes: empty, or a whole number. */
  datatype DurationField = Blank | Whole(n: int)

  /** A field `validateTimerInputs` has run on: empty or not negative. */
  predicate NonNegative(f: DurationField) {
    f.Blank? || f.n >= 0
  }

  /** `parseInt(field) || fallback`: an empty field and a field holding 0 both give the fallback. */
  function MinutesOr(f: DurationField, fallback: nat): (m: int)
    ensures fallback > 0 ==> m != 0
    ensures NonNegative(f) && fallback > 0 ==> m > 0
    ensures f.Whole? && f.n != 0 ==> m == f.n
    ensures f.Blank? || f.n == 0 ==> m == fallback
  {
    if f.Whole? && f.n != 0 then f.n else fallback
  }

  /** `if (field.value < 0) field.value = 0`: an empty field compares as 0 and is kept. */
  function Clamped(f: DurationField): (g: DurationField)
    ensures NonNegative(g)
    ensures NonNegative(f) ==> g == f
    ensures !NonNegative(f) ==> g == Whole(0)
  {
    if f.Whole? && f.n < 0 then Whole(0) else f
  }

  /** `localStorage.getItem(key) || fallback`: an absent key and an empty string give the fallback;
      any other stored text, "0" included, is kept. */
  function Loaded(stored: Option<DurationField>, fallback: nat): (f: DurationField)
    ensures f.Whole?
    ensures f == Whole(fallback) || stored == Some(f)
    ensures stored.Some? && stored.value.Whole? ==> f == stored.value
  {
    match stored
    case Some(Whole(n)) => Whole(n)
    case _ => Whole(fallback)
  }

  /** A stored length that `saveSettings` could have written: absent, or a validated field. */
  predicate StoredOk(o: Option<DurationField>) {
    o.None? || NonNegative(o.value)
  }

  /** `parseInt(localStorage.getItem('completedSessions')) || 0`: the stored count, or 0 when the key
      is absent. */
  function SavedSessions(o: Option<int>): (n: int)
    ensures o.None? ==> n == 0
    ensures o.Some? ==> n == o.value
  {
    o.GetOr(0)
  }

  /** The seven timer variables. */
  datatype Clock = Clock(
    minutes: int, seconds: int, running: bool, onBreak: bool,
    workTime: int, breakTime: int, sessions: int)

  /** The remaining time in seconds. */
  function Remaining(c: Clock): int {
    60 * c.minutes + c.seconds
  }

  predicate AtZero(c: Clock) {
    c.minutes == 0 && c.seconds == 0
  }

  /** What every handler keeps: the seconds are a clock reading and the minutes are not negative. */
  predicate Sound(c: Clock) {
    0 <= c.seconds < 60 && c.minutes >= 0
  }

  /** `updateTimer`: one tick. Away from 0:00 it counts down one second, borrowing a minute when the
      seconds are 0. At 0:00 it switches phase: the new minutes are the other phase's length, that
      length is added to the accumulator of the phase that just ended, a finished break counts one
      session, and the closing `toggleTimer()` flips `running`. */
  function Step(c: Clock, work: DurationField, brk: DurationField): Clock {
    if c.seconds == 0 then
      if c.minutes == 0 then
        if !c.onBreak then
          var m := MinutesOr(brk, 5);
          c.(onBreak := true, minutes := m, workTime := c.workTime + m, seconds := 0, running := !c.running)
        else
          var m := MinutesOr(work, 25);
          c.(onBreak := false, minutes := m, sessions := c.sessions + 1, breakTime := c.breakTime + m,
             seconds := 0, running := !c.running)
      else
        c.(minutes := c.minutes - 1, seconds := 59)
    else
      c.(seconds := c.seconds - 1)
  }

  /** `toggleTimer`: start or pause. */
  function Toggle(c: Clock): Clock {
    c.(running := !c.running)
  }

  /** `resetTimer`: a fresh, stopped work phase of the configured length. */
  function Reset(c: Clock, work: DurationField): Clock {
    c.(onBreak := false, running := false, minutes := MinutesOr(work, 25), seconds := 0)
  }

  // ---------------------------------------------------------------------------------------------
  // One handler call
  // ---------------------------------------------------------------------------------------------

  /** A tick away from 0:00 lowers the remaining time by exactly one second, keeps the seconds a clock
      reading, and changes nothing but the minutes and seconds. */
  lemma TickCountsDown(c: Clock, work: DurationField, brk: DurationField)
    requires Sound(c) && !AtZero(c)
    ensures var d := Step(c, work, brk);
      Sound(d) && Remaining(d) == Remaining(c) - 1 && d.(minutes := c.minutes, seconds := c.seconds) == c
  {
  }

  /** A tick at 0:00 switches the phase, restarts the seconds at 0 and stops a running timer.
      Leaving work, the minutes become the break length and are added to `workTime`; leaving a break,
      they become the work length, are added to `breakTime`, and one session is counted. */
  lemma TickSwitchesPhase(c: Clock, work: DurationField, brk: DurationField)
    requires AtZero(c)
    ensures var d := Step(c, work, brk);
      && d.onBreak == !c.onBreak && d.seconds == 0 && d.running == !c.running
      && (c.running ==> !d.running)
      && (!c.onBreak ==> d.minutes == MinutesOr(brk, 5) && d.workTime == c.workTime + d.minutes
                         && d.breakTime == c.breakTime && d.sessions == c.sessions)
      && (c.onBreak ==> d.minutes == MinutesOr(work, 25) && d.breakTime == c.breakTime + d.minutes
                        && d.workTime == c.workTime && d.sessions == c.sessions + 1)
  {
  }

  /** The session counter moves only when a break runs out, and then by exactly one. */
  lemma TickCountsSessions(c: Clock, work: DurationField, brk: DurationField)
    ensures Step(c, work, brk).sessions == c.sessions + (if AtZero(c) && c.onBreak then 1 else 0)
  {
  }

  /** With validated lengths, a tick keeps the clock sound. */
  lemma TickSound(c: Clock, work: DurationField, brk: DurationField)
    requires Sound(c) && NonNegative(work) && NonNegative(brk)
    ensures Sound(Step(c, work, brk))
  {
  }

  /** Start and pause only flip `running`, and pausing after starting restores the clock. */
  lemma ToggleOnlyFlipsRunning(c: Clock)
    ensures Toggle(c).running == !c.running && Toggle(c).(running := c.running) == c
    ensures Toggle(Toggle(c)) == c
  {
  }

  /** Reset gives a stopped work phase at (work length || 25):00 and keeps the counters; resetting
      twice is resetting once. */
  lemma ResetIsFreshWork(c: Clock, work: DurationField)
    ensures var d := Reset(c, work);
      && !d.onBreak && !d.running && d.minutes == MinutesOr(work, 25) && d.seconds == 0
      && d.workTime == c.workTime && d.breakTime == c.breakTime && d.sessions == c.sessions
    ensures Reset(Reset(c, work), work) == Reset(c, work)
  {
  }

  // ---------------------------------------------------------------------------------------------
  // Many ticks
  // ---------------------------------------------------------------------------------------------

  /** The clock after `n` ticks with unchanged settings. */
  function Ticks(c: Clock, n: nat, work: DurationField, brk: DurationField): Clock {
    if n == 0 then c else Step(Ticks(c, n - 1, work, brk), work, brk)
  }

  /** Up to the remaining time, `n` ticks lower the remaining time by `n` seconds and touch nothing
      else: the phase does not switch, the timer keeps running and no counter moves. */
  lemma {:induction false} Countdown(c: Clock, n: nat, work: DurationField, brk: DurationField)
    requires Sound(c) && n <= Remaining(c)
    ensures var d := Ticks(c, n, work, brk);
      Sound(d) && Remaining(d) == Remaining(c) - n && d.(minutes := c.minutes, seconds := c.seconds) == c
  {
    if n > 0 {
      Countdown(c, n - 1, work, brk);
      TickCountsDown(Ticks(c, n - 1, work, brk), work, brk);
    }
  }

  /** A started phase runs out after its remaining seconds plus one tick: the timer stands stopped at
      the start of the other phase, exactly as one tick at 0:00 leaves it. */
  lemma {:induction false} PhaseRunsOut(c: Clock, work: DurationField, brk: DurationField)
    requires Sound(c) && c.running
    ensures Ticks(c, Remaining(c) + 1, work, brk) == Step(c.(minutes := 0, seconds := 0), work, brk)
    ensures !Ticks(c, Remaining(c) + 1, work, brk).running
  {
    Countdown(c, Remaining(c), work, brk);
  }

  /** Press Start and let the phase run out. */
  function RunPhase(c: Clock, work: DurationField, brk: DurationField): Clock
    requires Remaining(c) >= 0
  {
    Ticks(Toggle(c), Remaining(c) + 1, work, brk)
  }

  /** The state `resetTimer` leaves: a stopped work phase of the configured length. */
  predicate ReadyForWork(c: Clock, work: DurationField) {
    !c.running && !c.onBreak && c.minutes == MinutesOr(work, 25) && c.seconds == 0
  }

  /** From a reset timer, starting twice and letting both phases run out completes one session: the
      timer is back at the start of a stopped work phase, `workTime` has grown by the break length,
      `breakTime` by the work length, and `completedSessions` by one. The first phase is a work
      phase that switches to a break exactly once. */
  lemma {:induction false} OneCycle(c: Clock, work: DurationField, brk: DurationField)
    requires ReadyForWork(c, work) && NonNegative(work) && NonNegative(brk)
    ensures var b := RunPhase(c, work, brk);
      && b.onBreak && !b.running && b.minutes == MinutesOr(brk, 5) && b.seconds == 0
      && b.workTime == c.workTime + MinutesOr(brk, 5) && b.sessions == c.sessions
    ensures RunPhase(RunPhase(c, work, brk), work, brk)
      == c.(workTime := c.workTime + MinutesOr(brk, 5), breakTime := c.breakTime + MinutesOr(work, 25),
            sessions := c.sessions + 1)
  {
    PhaseRunsOut(Toggle(c), work, brk);
    var b := RunPhase(c, work, brk);
    PhaseRunsOut(Toggle(b), work, brk);
  }

  /** `k` complete work-and-break cycles. */
  function Cycles(c: Clock, k: nat, work: DurationField, brk: DurationField): Clock
    decreases k
  {
    if k == 0 || !ReadyForWork(c, work) || !NonNegative(work) || !NonNegative(brk) then c
    else
      OneCycle(c, work, brk);
      Cycles(RunPhase(RunPhase(c, work, brk), work, brk), k - 1, work, brk)
  }

  /** After `k` cycles from a reset timer, `completedSessions` has grown by exactly `k` and both
      accumulators by `k` phase lengths; the timer is again a stopped work phase at its start. */
  lemma {:induction false} ManyCycles(c: Clock, k: nat, work: DurationField, brk: DurationField)
    requires ReadyForWork(c, work) && NonNegative(work) && NonNegative(brk)
    decreases k
    ensures Cycles(c, k, work, brk)
      == c.(workTime := c.workTime + k * MinutesOr(brk, 5), breakTime := c.breakTime + k * MinutesOr(work, 25),
            sessions := c.sessions + k)
  {
    if k > 0 {
      OneCycle(c, work, brk);
      var d := RunPhase(RunPhase(c, work, brk), work, brk);
      assert Cycles(c, k, work, brk) == Cycles(d, k - 1, work, brk);
      ManyCycles(d, k - 1, work, brk);
      var w, b := MinutesOr(work, 25), MinutesOr(brk, 5);
      assert (k - 1) * b + b == k * b && (k - 1) * w + w == k * w;
    }
  }

  // ---------------------------------------------------------------------------------------------
  // The page's timer
  // ---------------------------------------------------------------------------------------------

  /** The timer of one page: its global variables, the two duration inputs and the three storage keys. */
  class Timer {
    var minutes: int
    var seconds: int
    var isRunning: bool
    var isBreak: bool
    var workTime: int
    var breakTime: int
    var completedSessions: int
    var workDuration: DurationField
    var breakDuration: DurationField
    var storedWork: Option<DurationField>
    var storedBreak: Option<DurationField>
    var storedSessions: Option<int>

    function State(): Clock
      reads this
    {
      Clock(minutes, seconds, isRunning, isBreak, workTime, breakTime, completedSessions)
    }

    /** Everything but the inputs: a sound clock, stored lengths that were validated, and a session
        counter that a reload would read back from storage. */
    ghost predicate Settled()
      reads this
    {
      Sound(State()) && StoredOk(storedWork) && StoredOk(storedBreak)
      && completedSessions == SavedSessions(storedSessions)
    }

    ghost predicate Valid()
      reads this
    {
      Settled() && NonNegative(workDuration) && NonNegative(breakDuration)
    }

    /** Loading the page: the script's initial values, then `loadTimerSettings()` and `resetTimer()`
        as the DOMContentLoaded listener runs them. */
    constructor (savedWork: Option<DurationField>, savedBreak: Option<DurationField>, savedSessions: Option<int>)
      requires StoredOk(savedWork) && StoredOk(savedBreak)
      ensures Valid()
      ensures workDuration == Loaded(savedWork, 25) && breakDuration == Loaded(savedBreak, 5)
      ensures State() == Clock(MinutesOr(workDuration, 25), 0, false, false, 0, 0, SavedSessions(savedSessions))
      ensures storedWork == savedWork && storedBreak == savedBreak && storedSessions == savedSessions
    {
      minutes, seconds := 25, 0;
      isRunning, isBreak := false, false;
      workTime, breakTime := 0, 0;
      completedSessions := SavedSessions(savedSessions);
      workDuration, breakDuration := Blank, Blank;
      storedWork, storedBreak, storedSessions := savedWork, savedBreak, savedSessions;
      new;
      LoadTimerSettings();
      ResetTimer();
    }

    /** `loadTimerSettings`: fills both inputs from storage, with 25 and 5 for absent or empty keys. */
    method LoadTimerSettings()
      requires Settled()
      modifies this
      ensures Valid()
      ensures workDuration == Loaded(storedWork, 25) && breakDuration == Loaded(storedBreak, 5)
      ensures State() == old(State())
      ensures storedWork == old(storedWork) && storedBreak == old(storedBreak) && storedSessions == old(storedSessions)
    {
      workDuration := Loaded(storedWork, 25);
      breakDuration := Loaded(storedBreak, 5);
    }

    /** `validateTimerInputs`: raises a negative length to 0. */
    method ValidateTimerInputs()
      requires Settled()
      modifies this
      ensures Valid()
      ensures workDuration == Clamped(old(workDuration)) && breakDuration == Clamped(old(breakDuration))
      ensures State() == old(State())
      ensures storedWork == old(storedWork) && storedBreak == old(storedBreak) && storedSessions == old(storedSessions)
    {
      if workDuration.Whole? && workDuration.n < 0 {
        workDuration := Whole(0);
      }
      if breakDuration.Whole? && breakDuration.n < 0 {
        breakDuration := Whole(0);
      }
    }

    /** The user edits the two duration inputs; their `input` listeners run `validateTimerInputs`. */
    method EditDurations(work: DurationField, brk: DurationField)
      requires Valid()
      modifies this
      ensures Valid()
      ensures workDuration == Clamped(work) && breakDuration == Clamped(brk)
      ensures State() == old(State())
      ensures storedWork == old(storedWork) && storedBreak == old(storedBreak) && storedSessions == old(storedSessions)
    {
      workDuration, breakDuration := work, brk;
      ValidateTimerInputs();
    }

    /** `toggleTimer`: start or pause; nothing but `isRunning` changes. */
    method ToggleTimer()
      requires Valid()
      modifies this
      ensures Valid()
      ensures State() == Toggle(old(State()))
      ensures workDuration == old(workDuration) && breakDuration == old(breakDuration)
      ensures storedWork == old(storedWork) && storedBreak == old(storedBreak) && storedSessions == old(storedSessions)
    {
      isRunning := !isRunning;
    }

    /** `updateTimer`, called by the interval while the timer runs. At 0:00 it switches phase, saves
        the session counter when a break ends, and stops the timer by calling `toggleTimer()`. */
    method Tick()
      requires Valid() && isRunning
      modifies this
      ensures Valid()
      ensures State() == Step(old(State()), workDuration, breakDuration)
      ensures workDuration == old(workDuration) && breakDuration == old(breakDuration)
      ensures storedWork == old(storedWork) && storedBreak == old(storedBreak)
      ensures storedSessions == if AtZero(old(State())) && old(isBreak) then Some(completedSessions) else old(storedSessions)
    {
      if seconds == 0 {
        if minutes == 0 {
          if !isBreak {
            isBreak := true;
            minutes := MinutesOr(breakDuration, 5);
            workTime := workTime + minutes;
          } else {
            isBreak := false;
            minutes := MinutesOr(workDuration, 25);
            completedSessions := completedSessions + 1;
            storedSessions := Some(completedSessions);
            breakTime := breakTime + minutes;
          }
          seconds := 0;
          ToggleTimer();
          return;
        }
        minutes := minutes - 1;
        seconds := 59;
      } else {
        seconds := seconds - 1;
      }
    }

    /** `resetTimer`: stops the timer and starts a fresh work phase of the configured length. */
    method ResetTimer()
      requires Valid()
      modifies this
      ensures Valid()
      ensures State() == Reset(old(State()), workDuration)
      ensures workDuration == old(workDuration) && breakDuration == old(breakDuration)
      ensures storedWork == old(storedWork) && storedBreak == old(storedBreak) && storedSessions == old(storedSessions)
    {
      isBreak := false;
      isRunning := false;
      minutes := MinutesOr(workDuration, 25);
      seconds := 0;
    }

    /** `saveSettings`: stores both inputs, then resets the timer. */
    method SaveSettings()
      requires Valid()
      modifies this
      ensures Valid()
      ensures storedWork == Some(workDuration) && storedBreak == Some(breakDuration)
      ensures State() == Reset(old(State()), workDuration)
      ensures workDuration == old(workDuration) && breakDuration == old(breakDuration)
      ensures storedSessions == old(storedSessions)
    {
      storedWork := Some(workDuration);
      storedBreak := Some(breakDuration);
      ResetTimer();
    }
  }

  /** With one-minute phases, a started timer switches to a one-minute break after 61 ticks and
      stands stopped; a reload then finds the session counter where it was. */
  method OneMinutePhases() {
    var t := new Timer(Some(Whole(1)), Some(Whole(1)), None);
    assert t.State() == Clock(1, 0, false, false, 0, 0, 0);
    t.ToggleTimer();
    var k := 0;
    while k < 60
      invariant 0 <= k <= 60 && t.Valid()
      invariant t.workDuration == Whole(1) && t.breakDuration == Whole(1)
      invariant t.State() == Clock(if k == 0 then 1 else 0, if k == 0 then 0 else 60 - k, true, false, 0, 0, 0)
      invariant t.storedSessions == None
    {
      t.Tick();
      k := k + 1;
    }
    t.Tick();
    assert t.State() == Clock(1, 0, false, true, 1, 0, 0);
  }
}
