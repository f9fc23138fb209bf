/** Runs in which a step outside the discipline breaks mutual exclusion or misses a preemption. */
module CeilingCounterexamples {
  import opened Wrappers
  import opened Lists
  import opened Kernel
  import opened KernelInvariants
  import MutualExclusion
  import Preemption

  const LOW: Tid := 2
  const HIGH: Tid := 3
  const LOCK := Lock(0, 5)

  function Fresh(base: Prio): Thread { NOBODY.(base := base) }

  function Boot(lowBase: Prio, highBase: Prio): State {
    State(map[IDLE := NOBODY.(state := Running), LOW := Fresh(lowBase), HIGH := Fresh(highBase)],
          [], [], [], [], IDLE, false, false, None, map[], {})
  }

  lemma BootIsInit(lowBase: Prio, highBase: Prio)
    requires lowBase > MIN && highBase > MIN
    ensures Init(Boot(lowBase, highBase))
  {
  }

  // Single steps from states with short queues

  lemma RunOne(s: State, a: Action, rest: seq<Action>)
    requires Step(s, a).Ok?
    ensures Run(s, [a] + rest) == Run(Step(s, a).s, rest)
  {
    assert ([a] + rest)[1..] == rest;
  }

  lemma RunNone(s: State)
    ensures Run(s, []) == Ok(s)
  {
  }

  lemma Flags(s: State)
    ensures Step(s, DoYield) == Ok(s.(toEqual := true, toHigher := true)) && Step(s, DoTick) == Ok(s.(toHigher := true))
  {
  }

  lemma InsertAlone<T>(x: T, p: T -> bool)
    ensures InsertAfter([], x, p) == [x]
  {
    var none: seq<T> := [];
    assert Scan(none, p) == 0;
  }

  /** The first thread to be started joins an empty ready queue. */
  lemma Starts(s: State, t: Tid, b: Prio)
    requires t in s.th && s.th[t] == Fresh(b) && t != IDLE && t != s.current && s.ready == []
    ensures var s1 := s.(th := s.th[t := Fresh(b).(state := Ready)], ready := [t]);
      var higher := Max(ActiveOf(s1.th, s.current), LocksCeiling(s1)) < ActiveOf(s1.th, t);
      Step(s, DoStart(t)) == Ok(s1.(toHigher := s.toHigher || higher))
  {
    hide InsertAfter, ReadyAfter;
    var s0 := SetState(s, t, Started);
    InsertAlone(t, ReadyAfter(s0.th, t));
    var s1 := s.(th := s.th[t := Fresh(b).(state := Ready)], ready := [t]);
    assert MakeReady(s0, t).th == s1.th;
    assert MakeReady(s0, t) == s1;
  }

  function Swapped(th: Threads, h: Tid, c: Tid): Threads
    requires h in th && c in th
  {
    th[h := th[h].(state := Running)][c := th[c].(state := Ready)]
  }

  /** A reschedule switches to the only ready thread. */
  lemma Switches(s: State, h: Tid)
    requires s.sleep == [] && s.ready == [h] && (s.toEqual || s.toHigher)
    requires h in s.th && s.current in s.th && h != s.current
    requires ActiveOf(s.th, h) > ActiveOf(s.th, s.current)
      || (s.toEqual && ActiveOf(s.th, h) == ActiveOf(s.th, s.current))
    ensures Step(s, DoExec(0)) ==
      Ok(s.(th := Swapped(s.th, h, s.current), ready := if s.current == IDLE then [] else [s.current], current := h,
            toEqual := false, toHigher := false, alarm := None))
  {
    hide InsertAfter, ReadyAfter, Active, LockPrio;
    var s0 := s.(toEqual := false, toHigher := false, alarm := None);
    assert WakeExpired(s.(toEqual := false, toHigher := false), 0) == s0;
    var s1 := Switch(s0.(ready := []), h);
    assert s1 == s0.(ready := [], th := Swapped(s.th, h, s.current), current := h);
    InsertAlone(s.current, ReadyAfter(s1.th, s.current));
    assert SetState(s1, s.current, Ready).th == s1.th;
  }

  // A lock holder runs

  /** The low thread runs and owns `l`, and the high one is not started. */
  function LowOwns(highBase: Prio, l: Lock): State {
    Boot(3, highBase).(
      th := map[IDLE := NOBODY.(state := Ready), HIGH := Fresh(highBase),
                LOW := Thread(3, Running, NONE, l.ceiling, [l], [], Level(l.ceiling))],
      current := LOW, owner := map[l := LOW])
  }

  function LowRuns(highBase: Prio): State {
    Boot(3, highBase).(th := map[IDLE := NOBODY.(state := Ready), LOW := Fresh(3).(state := Running),
        HIGH := Fresh(highBase)],
                       current := LOW)
  }

  lemma LowRunsSteps(highBase: Prio)
    ensures var s := Boot(3, highBase);
      && Step(s, DoStart(LOW)).Ok? && !Step(s, DoStart(LOW)).s.toEqual && Step(s, DoStart(LOW)).s.current == IDLE
      && Step(Step(s, DoStart(LOW)).s, DoExec(0)) == Ok(LowRuns(highBase))
  {
    hide Step;
    var s0 := Boot(3, highBase);
    Starts(s0, LOW, 3);
    var s1 := Step(s0, DoStart(LOW)).s;
    Switches(s1, LOW);
    assert Step(s1, DoExec(0)).s.th == LowRuns(highBase).th;
  }

  lemma ReachLowRuns(highBase: Prio, rest: seq<Action>)
    ensures Run(Boot(3, highBase), [DoStart(LOW), DoExec(0)] + rest) == Run(LowRuns(highBase), rest)
  {
    hide Run, Step;
    var s0 := Boot(3, highBase);
    LowRunsSteps(highBase);
    var s1 := Step(s0, DoStart(LOW)).s;
    RunOne(s0, DoStart(LOW), [DoExec(0)] + rest);
    RunOne(s1, DoExec(0), rest);
    assert [DoStart(LOW), DoExec(0)] + rest == [DoStart(LOW)] + ([DoExec(0)] + rest);
  }

  lemma LowAcquires(highBase: Prio, l: Lock)
    requires l.ceiling >= 3
    ensures Step(LowRuns(highBase), DoAcquire(l)) == Ok(LowOwns(highBase, l))
  {
    hide InsertAfter, LockAfter;
    InsertAlone(l, LockAfter(l));
    assert Step(LowRuns(highBase), DoAcquire(l)).s.th == LowOwns(highBase, l).th;
  }

  lemma ReachLowOwns(highBase: Prio, rest: seq<Action>)
    ensures Run(Boot(3, highBase), [DoStart(LOW), DoExec(0), DoAcquire(LOCK)] + rest) ==
      Run(LowOwns(highBase, LOCK), rest)
  {
    hide Run, Step;
    LowAcquires(highBase, LOCK);
    RunOne(LowRuns(highBase), DoAcquire(LOCK), rest);
    ReachLowRuns(highBase, [DoAcquire(LOCK)] + rest);
    assert [DoStart(LOW), DoExec(0), DoAcquire(LOCK)] + rest == [DoStart(LOW), DoExec(0)] + ([DoAcquire(LOCK)] + rest);
  }

  /** The high thread becomes ready while the low one runs with its lock. */
  function HighReady(highBase: Prio): State {
    LowOwns(highBase, LOCK).(
      th := LowOwns(highBase, LOCK).th[HIGH := Fresh(highBase).(state := Ready)], ready := [HIGH])
  }

  lemma HighStarts(highBase: Prio)
    requires MIN <= highBase <= 5
    ensures Step(LowOwns(highBase, LOCK), DoStart(HIGH)) == Ok(HighReady(highBase))
  {
    Starts(LowOwns(highBase, LOCK), HIGH, highBase);
    hide Step;
  }

  /** A running high thread that passes the ceiling check meets the owner. */
  lemma HighConflicts(s: State)
    requires s.current == HIGH && s.owner == map[LOCK := LOW] && ActiveOf(s.th, HIGH) <= 5
    ensures Run(s, [DoAcquire(LOCK)]) == Halt(LockAlreadyOwned)
  {
    assert Run(s, [DoAcquire(LOCK)]) ==
        match Step(s, DoAcquire(LOCK)) case Ok(s1) => Run(s1, []) case Halt(why) => Halt(why);
  }

  /** Yielding to an equal while holding a lock: releasing the preemption lock does this whenever a
      reschedule is pending. */
  lemma EqualYieldMeetsOwner()
    ensures Init(Boot(3, 5))
    ensures Run(Boot(3, 5), [DoStart(LOW), DoExec(0), DoAcquire(LOCK)] +
                            [DoStart(HIGH), DoYield, DoExec(0), DoAcquire(LOCK)]) == Halt(LockAlreadyOwned)
  {
    hide Run, Step;
    BootIsInit(3, 5);
    var a3 := [DoExec(0)] + [DoAcquire(LOCK)];
    var a2 := [DoYield] + a3;
    var a1 := [DoStart(HIGH)] + a2;
    assert [DoStart(HIGH), DoYield, DoExec(0), DoAcquire(LOCK)] == a1;
    ReachLowOwns(5, a1);
    HighStarts(5);
    RunOne(LowOwns(5, LOCK), DoStart(HIGH), a2);
    var s5 := HighReady(5).(toEqual := true, toHigher := true);
    Flags(HighReady(5));
    RunOne(HighReady(5), DoYield, a3);
    Switches(s5, HIGH);
    RunOne(s5, DoExec(0), [DoAcquire(LOCK)]);
    HighConflicts(Step(s5, DoExec(0)).s);
  }

  // The lock holder gives up the processor

  /** The low thread stops and no ready thread is above its lock. */
  lemma Idles(s: State)
    requires s.current == LOW && LOW in s.th && IDLE in s.th
    requires s.ready == [] || ActiveOf(s.th, s.ready[0]) <= Max(LocksCeiling(s), MIN)
    ensures LeaveCpu(s) == s.(th := Swapped(s.th, IDLE, LOW), current := IDLE)
  {
  }

  /** The low thread has stopped with its lock and the high one is ready. */
  function Stopped(x: ExecState, blocked: seq<Tid>, suspended: seq<Tid>, y: Thread, ready: seq<Tid>): State {
    LowOwns(4, LOCK).(
      th := map[IDLE := NOBODY.(state := Running), LOW := Thread(3, x, NONE, 5, [LOCK], [], 0), HIGH := y],
      ready := ready, blocked := blocked, suspended := suspended, current := IDLE)
  }

  const LATE := Fresh(4).(state := Ready)

  lemma LowBlocks()
    ensures Step(LowOwns(4, LOCK), DoBlock(None)) == Ok(Stopped(Blocked, [LOW], [], Fresh(4), []))
  {
    hide InsertAfter, BlockedAfter, LeaveCpu;
    var s := LowOwns(4, LOCK);
    Idles(s);
    InsertAlone(LOW, BlockedAfter(LeaveCpu(s).th, LOW));
    assert Step(s, DoBlock(None)).s.th == Stopped(Blocked, [LOW], [], Fresh(4), []).th;
  }

  lemma HighStartsLate()
    ensures Step(Stopped(Blocked, [LOW], [], Fresh(4), []), DoStart(HIGH)) ==
      Ok(Stopped(Blocked, [LOW], [], LATE, [HIGH]))
  {
    var s := Stopped(Blocked, [LOW], [], Fresh(4), []);
    Starts(s, HIGH, 4);
    hide Step;
    assert Step(s, DoStart(HIGH)).s.th == Stopped(Blocked, [LOW], [], LATE, [HIGH]).th;
  }

  /** From either state the next tick runs the high thread, which meets the owner. */
  lemma TickConflicts(x: ExecState, blocked: seq<Tid>, suspended: seq<Tid>)
    ensures Run(Stopped(x, blocked, suspended, LATE, [HIGH]), [DoTick, DoExec(0), DoAcquire(LOCK)]) ==
      Halt(LockAlreadyOwned)
  {
    hide Run, Step;
    var s := Stopped(x, blocked, suspended, LATE, [HIGH]);
    var s1 := s.(toHigher := true);
    var a2 := [DoExec(0)] + [DoAcquire(LOCK)];
    assert [DoTick, DoExec(0), DoAcquire(LOCK)] == [DoTick] + a2;
    Flags(s);
    RunOne(s, DoTick, a2);
    Switches(s1, HIGH);
    RunOne(s1, DoExec(0), [DoAcquire(LOCK)]);
    HighConflicts(Step(s1, DoExec(0)).s);
  }

  /** Blocking with a lock: the wake-up keeps the waiter back, but any later timer tick reschedules
      past the blocked holder. */
  lemma BlockedHolderMeetsOwner()
    ensures Init(Boot(3, 4))
    ensures Run(Boot(3, 4), [DoStart(LOW), DoExec(0), DoAcquire(LOCK)] +
                            [DoBlock(None), DoStart(HIGH), DoTick, DoExec(0), DoAcquire(LOCK)])
            == Halt(LockAlreadyOwned)
  {
    hide Run, Step;
    BootIsInit(3, 4);
    var a3 := [DoTick, DoExec(0), DoAcquire(LOCK)];
    var a2 := [DoStart(HIGH)] + a3;
    var a1 := [DoBlock(None)] + a2;
    assert [DoBlock(None), DoStart(HIGH), DoTick, DoExec(0), DoAcquire(LOCK)] == a1;
    ReachLowOwns(4, a1);
    LowBlocks();
    RunOne(LowOwns(4, LOCK), DoBlock(None), a2);
    HighStartsLate();
    RunOne(Stopped(Blocked, [LOW], [], Fresh(4), []), DoStart(HIGH), a3);
    TickConflicts(Blocked, [LOW], []);
  }

  lemma LowSuspends()
    ensures Step(HighReady(4), DoSuspend(LOW)) == Ok(Stopped(Suspended, [], [LOW], LATE, [HIGH]))
  {
    hide LeaveCpu;
    var s := HighReady(4);
    Idles(s);
    assert Step(s, DoSuspend(LOW)).s.th == Stopped(Suspended, [], [LOW], LATE, [HIGH]).th;
  }

  lemma ReachSuspended(rest: seq<Action>)
    ensures Run(Boot(3, 4), [DoStart(LOW), DoExec(0), DoAcquire(LOCK)] +
      ([DoStart(HIGH)] + ([DoSuspend(LOW)] + rest))) ==
            Run(Stopped(Suspended, [], [LOW], LATE, [HIGH]), rest)
  {
    hide Run, Step;
    ReachLowOwns(4, [DoStart(HIGH)] + ([DoSuspend(LOW)] + rest));
    HighStarts(4);
    RunOne(LowOwns(4, LOCK), DoStart(HIGH), [DoSuspend(LOW)] + rest);
    LowSuspends();
    RunOne(HighReady(4), DoSuspend(LOW), rest);
  }

  /** Suspending oneself with a lock: a ready thread that only this lock kept back waits while the
      idle thread runs and no reschedule is pending. */
  lemma SelfSuspensionMissesPreemption()
    ensures Init(Boot(3, 4))
    ensures var r := Run(Boot(3, 4), [DoStart(LOW), DoExec(0), DoAcquire(LOCK), DoStart(HIGH), DoSuspend(LOW)]);
      r.Ok? && r.s.current == IDLE && r.s.ready == [HIGH] && !Preemption.Prompt(r.s)
  {
    BootIsInit(3, 4);
    ReachSuspended([]);
    assert [DoStart(LOW), DoExec(0), DoAcquire(LOCK), DoStart(HIGH), DoSuspend(LOW)] ==
           [DoStart(LOW), DoExec(0), DoAcquire(LOCK)] + ([DoStart(HIGH)] + ([DoSuspend(LOW)] + []));
    var s := Stopped(Suspended, [], [LOW], LATE, [HIGH]);
    RunNone(s);
    hide Run;
    assert HIGH in Elems(s.ready);
  }

  /** Suspending a lock holder: the thread that runs next passes the ceiling check and meets the owner. */
  lemma SuspendedHolderMeetsOwner()
    ensures Run(Boot(3, 4), [DoStart(LOW), DoExec(0), DoAcquire(LOCK)] +
                            [DoStart(HIGH), DoSuspend(LOW), DoTick, DoExec(0), DoAcquire(LOCK)])
            == Halt(LockAlreadyOwned)
  {
    hide Run;
    var a := [DoTick, DoExec(0), DoAcquire(LOCK)];
    assert [DoStart(HIGH), DoSuspend(LOW)] + a == [DoStart(HIGH)] + ([DoSuspend(LOW)] + a);
    assert [DoStart(HIGH), DoSuspend(LOW), DoTick, DoExec(0), DoAcquire(LOCK)] == [DoStart(HIGH), DoSuspend(LOW)] + a;
    ReachSuspended(a);
    TickConflicts(Suspended, [], [LOW]);
  }

  // The idle thread in a section

  const RAISED := Thread(MIN, Ready, 5, NONE, [], [Frame(5, NONE)], 0)

  function InSection(idle: Thread, x: Thread, y: Thread, current: Tid, ready: seq<Tid>, blocked: seq<Tid>,
      higher: bool): State {
    Boot(3, 6).(th := map[IDLE := idle, LOW := x, HIGH := y], current := current, ready := ready, blocked := blocked,
        toHigher := higher)
  }

  lemma IdleEnters()
    ensures Step(Boot(3, 6), DoEnter(5)) ==
      Ok(InSection(RAISED.(state := Running), Fresh(3), Fresh(6), IDLE, [], [], false))
  {
    assert [] + [Frame(5, NONE)] == [Frame(5, NONE)];
    assert Step(Boot(3, 6), DoEnter(5)).s.th ==
        InSection(RAISED.(state := Running), Fresh(3), Fresh(6), IDLE, [], [], false).th;
  }

  lemma HighPreemptsIdle(rest: seq<Action>)
    ensures Run(Boot(3, 6), [DoEnter(5)] + ([DoStart(HIGH)] + ([DoExec(0)] + rest))) ==
            Run(InSection(RAISED, Fresh(3), Fresh(6).(state := Running), HIGH, [], [], false), rest)
  {
    hide Run, Step;
    var idle := RAISED.(state := Running);
    var s1 := InSection(idle, Fresh(3), Fresh(6), IDLE, [], [], false);
    IdleEnters();
    RunOne(Boot(3, 6), DoEnter(5), [DoStart(HIGH)] + ([DoExec(0)] + rest));
    Starts(s1, HIGH, 6);
    var s2 := InSection(idle, Fresh(3), Fresh(6).(state := Ready), IDLE, [HIGH], [], true);
    assert Step(s1, DoStart(HIGH)).s.th == s2.th;
    RunOne(s1, DoStart(HIGH), [DoExec(0)] + rest);
    Switches(s2, HIGH);
    assert Step(s2, DoExec(0)).s.th == InSection(RAISED, Fresh(3), Fresh(6).(state := Running), HIGH, [], [], false).th;
    RunOne(s2, DoExec(0), rest);
  }

  lemma LowTakesOver()
    ensures Step(InSection(RAISED, Fresh(3).(state := Ready), Fresh(6).(state := Running), HIGH, [LOW], [], false),
      DoBlock(None)) ==
            Ok(InSection(RAISED, Fresh(3).(state := Running), Fresh(6).(state := Blocked), LOW, [], [HIGH], false))
  {
    hide InsertAfter, BlockedAfter;
    var s := InSection(RAISED, Fresh(3).(state := Ready), Fresh(6).(state := Running), HIGH, [LOW], [], false);
    var s1 := LeaveCpu(s);
    assert s1 == s.(th := Swapped(s.th, LOW, HIGH), ready := [], current := LOW);
    InsertAlone(HIGH, BlockedAfter(s1.th, HIGH));
    assert Step(s, DoBlock(None)).s.th == InSection(RAISED, Fresh(3).(state := Running), Fresh(6).(state := Blocked),
        LOW, [], [HIGH], false).th;
  }

  /** The idle thread in a section: once it has been preempted, a thread below the section's ceiling
      runs while the section is live, because idle never stands in a queue. */
  lemma IdleSectionBreaksExclusion()
    ensures Init(Boot(3, 6))
    ensures var r := Run(Boot(3, 6), [DoEnter(5)] +
      ([DoStart(HIGH)] + ([DoExec(0)] + ([DoStart(LOW)] + [DoBlock(None)]))));
      r.Ok? && r.s.current == LOW && !MutualExclusion.Exclusive(r.s)
  {
    hide Run, Step;
    BootIsInit(3, 6);
    HighPreemptsIdle([DoStart(LOW)] + [DoBlock(None)]);
    var s3 := InSection(RAISED, Fresh(3), Fresh(6).(state := Running), HIGH, [], [], false);
    var s4 := InSection(RAISED, Fresh(3).(state := Ready), Fresh(6).(state := Running), HIGH, [LOW], [], false);
    Starts(s3, LOW, 3);
    assert Step(s3, DoStart(LOW)).s.th == s4.th;
    RunOne(s3, DoStart(LOW), [DoBlock(None)]);
    LowTakesOver();
    RunOne(s4, DoBlock(None), []);
    assert [DoBlock(None)] + [] == [DoBlock(None)];
    RunNone(Step(s4, DoBlock(None)).s);
    assert Get(Step(s4, DoBlock(None)).s.th, IDLE).frames[0].ceiling == 5;
  }
}
