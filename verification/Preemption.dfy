/** No missed preemption: whenever a ready thread should run, a reschedule is pending. */
module Preemption {
  import opened Wrappers
  import opened Lists
  import opened Kernel
  import opened KernelInvariants

  // The constant-time ceiling

  /** `locks_priority_ceiling` looks at one blocked thread; it agrees with a scan of them all. */
  lemma CeilingIsFullScan(s: State)
    requires Inv(s)
    ensures LocksCeiling(s) >= LockPrioOf(s.th, s.current)
    ensures forall u :: u in Elems(s.blocked) ==> LockPrioOf(s.th, u) <= LocksCeiling(s)
    ensures LocksCeiling(s) == LockPrioOf(s.th, s.current)
            || exists u :: u in Elems(s.blocked) && LockPrioOf(s.th, u) == LocksCeiling(s)
  {
    forall u | u in Elems(s.blocked) ensures LockPrioOf(s.th, u) <= LocksCeiling(s) {
      BlockedHead(s.th, s.blocked, u);
    }
    if s.blocked != [] {
      assert s.blocked[0] in Elems(s.blocked);
    }
  }

  lemma BlockedHead(th: Threads, q: seq<Tid>, u: Tid)
    requires BlockedOrdered(th, q) && u in Elems(q)
    ensures q != [] && LockPrioOf(th, u) <= LockPrioOf(th, q[0])
  {
    var i := ElemsAt(q, u);
  }

  lemma ReadyHead(th: Threads, q: seq<Tid>, u: Tid)
    requires ReadyOrdered(th, q) && u in Elems(q)
    ensures q != [] && ActiveOf(th, u) <= ActiveOf(th, q[0])
  {
    var i := ElemsAt(q, u);
    assert Rank(th, q[0]) >= Rank(th, u);
  }

  /** The priority that a ready thread has to exceed to run. */
  function Floor(s: State): int { Max(ActiveOf(s.th, s.current), LocksCeiling(s)) }

  ghost predicate NoneAbove(s: State, floor: int) {
    forall t :: t in Elems(s.ready) ==> ActiveOf(s.th, t) <= floor
  }

  ghost predicate Prompt(s: State) { s.Pending() || NoneAbove(s, Floor(s)) }

  // Switching

  lemma TailNoneAbove(s: State)
    requires ReadyOrdered(s.th, s.ready) && s.ready != []
    ensures forall u :: u in Elems(s.ready[1..]) ==> ActiveOf(s.th, u) <= ActiveOf(s.th, s.ready[0])
  {
    forall u | u in Elems(s.ready[1..]) ensures ActiveOf(s.th, u) <= ActiveOf(s.th, s.ready[0]) {
      ReadyHead(s.th, s.ready, u);
    }
  }

  /** After the processor is given up, nobody above the new running thread and the ceiling that
      was in force is left waiting. */
  lemma LeaveCpuNoneAbove(s: State)
    requires Inv(s) && s.current != IDLE
    ensures var r := LeaveCpu(s);
            && NoneAbove(r, Max(ActiveOf(r.th, r.current), LocksCeiling(s)))
            && (r.current == IDLE || ActiveOf(r.th, r.current) > LocksCeiling(s))
  {
    hide Located, BlockedOrdered, NoDup, Sleeping, NeverLate, Owners, Exact, Switch, Elems, ReadyOrdered, LocksCeiling;
    var r := LeaveCpu(s);
    var (s1, next) := PopAbove(s, Max(LocksCeiling(s), MIN), IDLE);
    SwitchQueues(s1, next);
    IdleBase(s);
    SamePrioAfterLeave(s);
    if s1 != s {
      TailNoneAbove(s);
    } else {
      forall u | u in Elems(s.ready) ensures ActiveOf(s.th, u) <= Max(LocksCeiling(s), MIN) {
        ReadyHead(s.th, s.ready, u);
      }
    }
  }

  lemma IdleBase(s: State)
    requires Inv(s)
    ensures IDLE in s.th && s.th[IDLE].base >= MIN
  {
  }

  ghost predicate Alike(th: Threads, th': Threads) {
    forall u :: ActiveOf(th', u) == ActiveOf(th, u) && LockPrioOf(th', u) == LockPrioOf(th, u)
  }

  lemma ScheduledAlike(s: State, r: State)
    requires Scheduled(s, r)
    ensures Alike(s.th, r.th)
  {
  }

  lemma SamePrioAfterLeave(s: State)
    requires Inv(s) && s.current != IDLE
    ensures Alike(s.th, LeaveCpu(s).th)
  {
    hide Located, ReadyOrdered, BlockedOrdered, NoDup, Sleeping, NeverLate, Owners, AllExact, LeaveCpu, Elems, Alike,
        OnlyStates;
    LeaveCpuInv(s);
    ScheduledAlike(s, LeaveCpu(s));
  }

  lemma BlockShape(s: State, d: Option<nat>)
    requires Inv(s) && s.current != IDLE
    ensures var r, s1 := BlockCurrent(s, d).s, LeaveCpu(s);
            && Elems(r.blocked) == Elems(s.blocked) + {s.current} && r.ready == s1.ready && r.current == s1.current
            && Alike(s1.th, r.th)
            && r.toEqual == s.toEqual && r.toHigher == s.toHigher
  {
    hide Located, ReadyOrdered, BlockedOrdered, NoDup, Sleeping, NeverLate, Owners, AllExact, LeaveCpu, Elems, Alike,
        OnlyStates;
    var r, s1 := BlockCurrent(s, d).s, LeaveCpu(s);
    LeaveCpuInv(s);
    InsertElems(s.blocked, s.current, BlockedAfter(s1.th, s.current));
    SetStateScheduled(s1, s.current, Blocked);
    ScheduledAlike(s1, SetState(s1, s.current, Blocked));
  }

  /** What blocking picks outranks every lock held by a blocked thread, its own included. */
  lemma BlockPicksAboveCeilings(s: State, d: Option<nat>)
    requires Inv(s) && s.current != IDLE
    ensures var r := BlockCurrent(s, d).s;
            && (r.current == IDLE || forall u :: u in Elems(r.blocked) ==>
                ActiveOf(r.th, r.current) > LockPrioOf(r.th, u))
            && NoneAbove(r, Floor(r))
  {
    var r := BlockCurrent(s, d).s;
    hide Inv, LeaveCpu, BlockCurrent, Elems, LocksCeiling;
    LeaveCpuNoneAbove(s);
    SamePrioAfterLeave(s);
    BlockShape(s, d);
    CeilingIsFullScan(s);
    BlockInv(s, d);
    CeilingIsFullScan(r);
    assert LockPrioOf(r.th, s.current) == LockPrioOf(s.th, s.current);
    assert LocksCeiling(r) >= LocksCeiling(s);
  }

  // Suspending

  function BlockedCeiling(s: State): Prio {
    if s.blocked == [] then NONE else LockPrioOf(s.th, s.blocked[0])
  }

  /** Self-suspension takes the caller's locks out of the ceiling, so it must not have kept back a
      thread that nothing else keeps back. */
  predicate SuspendKeeps(s: State) {
    || s.toEqual || s.toHigher || s.ready == []
    || ActiveOf(s.th, s.ready[0]) > Max(LocksCeiling(s), MIN)
    || ActiveOf(s.th, s.ready[0]) <= Max(ActiveOf(s.th, IDLE), BlockedCeiling(s))
  }

  lemma LockFreeSuspendKeeps(s: State)
    requires Inv(s) && !Holds(Get(s.th, s.current))
    ensures SuspendKeeps(s)
  {
    IdleBase(s);
  }

  lemma SelfSuspendShape(s: State)
    requires Inv(s) && s.current != IDLE
    ensures var r, s1 := ToSuspended(LeaveCpu(s), s.current), LeaveCpu(s);
            && r.ready == s1.ready && r.current == s1.current && r.blocked == s.blocked && Alike(s.th, r.th)
            && r.toEqual == s.toEqual && r.toHigher == s.toHigher
  {
    hide Located, ReadyOrdered, BlockedOrdered, NoDup, Sleeping, NeverLate, Owners, AllExact, LeaveCpu, Elems,
        OnlyStates;
    LeaveCpuInv(s);
    SamePrioAfterLeave(s);
    SetStateScheduled(LeaveCpu(s), s.current, Suspended);
    ScheduledAlike(LeaveCpu(s), SetState(LeaveCpu(s), s.current, Suspended));
  }

  lemma SelfSuspendPromptIff(s: State)
    requires Inv(s) && s.current != IDLE && Suspend(s, s.current).Ok?
    ensures Prompt(Suspend(s, s.current).s) <==> SuspendKeeps(s)
  {
    hide Located, BlockedOrdered, NoDup, Sleeping, NeverLate, Owners, AllExact;
    assert Get(s.th, s.current).state == Running by { CurrentKnown(s); }
    var r := ToSuspended(LeaveCpu(s), s.current);
    SelfSuspendShape(s);
    IdleBase(s);
    if s.ready != [] && ActiveOf(s.th, s.ready[0]) > Max(LocksCeiling(s), MIN) {
      TailNoneAbove(s);
      assert r.current == s.ready[0] && r.ready == s.ready[1..];
    } else {
      assert r.current == IDLE && r.ready == s.ready;
      assert Floor(r) == Max(ActiveOf(s.th, IDLE), BlockedCeiling(s));
      AlikeNone(s, r, Floor(r));
      hide LeaveCpu, ToSuspended, Alike;
      if s.ready != [] {
        assert s.ready[0] in Elems(s.ready);
        forall u | u in Elems(s.ready) ensures ActiveOf(s.th, u) <= ActiveOf(s.th, s.ready[0]) {
          ReadyHead(s.th, s.ready, u);
        }
      }
    }
  }

  lemma AlikeNone(s: State, r: State, f: int)
    requires Alike(s.th, r.th) && r.ready == s.ready
    ensures NoneAbove(s, f) <==> NoneAbove(r, f)
  {
  }

  lemma SuspendOtherPrompt(s: State, t: Tid)
    requires Inv(s) && Prompt(s) && t != s.current && Suspend(s, t).Ok?
    ensures Prompt(Suspend(s, t).s)
  {
    hide Ordered, Sleeping, NeverLate, Owners, AllExact, LeaveCpu;
    var r := Suspend(s, t).s;
    assert Get(s.th, t).state != Running;
    SetStateScheduled(s, t, Suspended);
    ScheduledAlike(s, SetState(s, t, Suspended));
    if Get(s.th, t).state == Ready {
      WithoutElems(s.ready, t);
    }
    hide Located, NoDup, Without, Scheduled;
    assert Elems(r.ready) <= Elems(s.ready) && r.blocked == s.blocked && Alike(s.th, r.th);
  }

  // Resuming

  lemma ReadyGrows(s: State, t: Tid)
    requires Inv(s)
    ensures var r := MakeReady(s, t);
            && Elems(r.ready) <= Elems(s.ready) + {t} && Elems(r.blocked) >= Elems(s.blocked) - {t}
            && Alike(s.th, r.th) && r.current == s.current
  {
    hide Located, Ordered, Sleeping, NeverLate, Owners, AllExact, OnlyStates, Alike, Elems, NoDup, Without, Awake;
    MakeReadyInv(s, t);
    ScheduledAlike(s, MakeReady(s, t));
    WithoutElems(s.blocked, t);
    InsertElems(s.ready, t, ReadyAfter(s.th, t));
  }

  lemma ResumePrompt(s: State, t: Tid)
    requires Inv(s) && Prompt(s)
    ensures Prompt(Resume(s, t))
  {
    hide Inv, MakeReady, Elems, LocksCeiling;
    var s1, r := MakeReady(s, t), Resume(s, t);
    assert s1.toEqual == s.toEqual && s1.toHigher == s.toHigher by { MakeReadyFlags(s, t); }
    ReadyGrows(s, t);
    MakeReadyInv(s, t);
    CeilingIsFullScan(s);
    CeilingIsFullScan(s1);
    if !r.Pending() {
      assert LocksCeiling(r) == LocksCeiling(s1) && ActiveOf(s1.th, t) <= Floor(s1) by { SameCeiling(s1, r); }
      forall u | u in Elems(r.ready) ensures ActiveOf(r.th, u) <= Floor(r) {
        if u != t {
          assert ActiveOf(s.th, u) <= Floor(s);
          if LocksCeiling(s) > LocksCeiling(s1) {
            assert LockPrioOf(s1.th, t) <= ActiveOf(s1.th, t);
          }
        }
      }
    }
  }

  lemma MakeReadyFlags(s: State, t: Tid)
    ensures MakeReady(s, t).toEqual == s.toEqual && MakeReady(s, t).toHigher == s.toHigher
  {
  }

  lemma SameCeiling(s: State, r: State)
    requires r.th == s.th && r.blocked == s.blocked && r.current == s.current
    ensures LocksCeiling(r) == LocksCeiling(s)
  {
  }

  lemma StartPrompt(s: State, t: Tid)
    requires Inv(s) && Prompt(s) && Start(s, t).Ok?
    ensures Prompt(Start(s, t).s)
  {
    hide Inv, Resume, Elems;
    var s1 := SetState(s, t, Started);
    SetStateScheduled(s, t, Started);
    ScheduledAlike(s, s1);
    hide Scheduled;
    StartedInv(s, t);
    ResumePrompt(s1, t);
  }

  // Rescheduling and locks

  lemma PreemptShape(s: State, equal: bool)
    requires Inv(s) && s.ready != [] && Preempt(s, equal).current != s.current
    ensures var r := Preempt(s, equal);
            r.current == s.ready[0] && Elems(r.ready) <= Elems(s.ready[1..]) + {s.current}
            && ActiveOf(s.th, s.ready[0]) >= ActiveOf(s.th, s.current)
  {
    hide Inv, Elems, Switch;
    var s2 := Switch(s.(ready := s.ready[1..]), s.ready[0]);
    SwitchQueues(s.(ready := s.ready[1..]), s.ready[0]);
    InsertElems(s2.ready, s.current, ReadyAfter(s2.th, s.current));
  }

  lemma SwitchQueues(s: State, next: Tid)
    ensures Switch(s, next) == s.(th := Switch(s, next).th, current := next)
  {
  }

  lemma PreemptStays(s: State, equal: bool)
    requires Inv(s) && Preempt(s, equal).current == s.current
    ensures Preempt(s, equal) == s && (s.ready != [] ==> ActiveOf(s.th, s.ready[0]) <= ActiveOf(s.th, s.current))
  {
    hide Ordered, Sleeping, NeverLate, Owners, AllExact, NoDup;
    if s.ready != [] {
      HeadReady(s);
    }
  }

  lemma PreemptNoneAbove(s: State, equal: bool)
    requires Inv(s)
    ensures NoneAbove(Preempt(s, equal), ActiveOf(Preempt(s, equal).th, Preempt(s, equal).current))
  {
    hide BlockedOrdered, Sleeping, NeverLate, Owners, AllExact, Located, NoDup, Preempt, Elems, Alike, OnlyStates,
        ReadyOrdered;
    var r, c := Preempt(s, equal), s.current;
    if r.current == c {
      PreemptStays(s, equal);
      forall u | u in Elems(s.ready) ensures ActiveOf(s.th, u) <= ActiveOf(s.th, c) {
        ReadyHead(s.th, s.ready, u);
      }
    } else {
      assert s.ready != [] by { EmptyStays(s, equal); }
      PreemptShape(s, equal);
      TailNoneAbove(s);
      PreemptInv(s, equal);
      ScheduledAlike(s, r);
      forall u | u in Elems(r.ready) ensures ActiveOf(r.th, u) <= ActiveOf(r.th, r.current) {
        AlikeAt(s.th, r.th, u);
        AlikeAt(s.th, r.th, r.current);
      }
    }
  }

  lemma EmptyStays(s: State, equal: bool)
    ensures s.ready == [] ==> Preempt(s, equal).current == s.current
  {
  }

  lemma AlikeAt(th: Threads, th': Threads, u: Tid)
    requires Alike(th, th')
    ensures ActiveOf(th', u) == ActiveOf(th, u)
  {
  }

  lemma ExecPrompt(s: State, now: nat)
    requires Inv(s) && Prompt(s)
    ensures Prompt(Exec(s, now))
  {
    hide Inv, WakeExpired, Preempt, Elems, LocksCeiling;
    if s.Pending() {
      var s0 := s.(toEqual := false, toHigher := false);
      FlagsInv(s, false, false);
      WakeExpiredInv(s0, now);
      PreemptNoneAbove(WakeExpired(s0, now), s.toEqual);
    }
  }

  lemma CondPrompt(s: State)
    requires Inv(s)
    ensures Prompt(CondReschedule(s))
  {
    hide Located, BlockedOrdered, NoDup, Sleeping, NeverLate, Owners, AllExact, LocksCeiling;
    forall u | u in Elems(s.ready) ensures ActiveOf(s.th, u) <= ActiveOf(s.th, s.ready[0]) {
      ReadyHead(s.th, s.ready, u);
    }
  }

  /** Raising the running thread keeps everybody back that was kept back. */
  lemma RaisePrompt(s: State, r: State)
    requires Inv(s) && Prompt(s) && r.ready == s.ready && r.blocked == s.blocked && r.current == s.current
    requires r.toEqual == s.toEqual && r.toHigher == s.toHigher
    requires forall u :: u != s.current ==> Get(r.th, u) == Get(s.th, u)
    requires ActiveOf(r.th, s.current) >= ActiveOf(s.th, s.current)
      && LockPrioOf(r.th, s.current) >= LockPrioOf(s.th, s.current)
    ensures Prompt(r)
  {
    hide Ordered, NoDup, Sleeping, NeverLate, Owners, AllExact;
    assert s.current !in Elems(s.ready);
    assert s.blocked != [] ==> s.blocked[0] in Elems(s.blocked) && s.blocked[0] != s.current;
    hide Located, Elems;
    assert Floor(r) >= Floor(s);
  }

  lemma AcquirePrompt(s: State, l: Lock)
    requires Inv(s) && Prompt(s) && Acquire(s, l).Ok?
    ensures Prompt(Acquire(s, l).s)
  {
    hide Located, Ordered, NoDup, Sleeping, NeverLate, Owners;
    var r, x := Acquire(s, l).s, Get(s.th, s.current);
    CurrentKnown(s);
    ActiveIsMax(x);
    AcquireInv(s, l);
    ActiveIsMax(r.th[s.current]);
    hide Elems;
    RaisePrompt(s, r);
  }

  lemma EnterPrompt(s: State, c: Prio)
    requires Inv(s) && Prompt(s)
    ensures Prompt(EnterSection(s, c))
  {
    hide Inv, Prompt;
    OwnedIsHead(s);
    RaisePrompt(s, EnterSection(s, c));
  }

  lemma OwnedIsHead(s: State)
    requires Inv(s)
    ensures s.current in s.th
    ensures var x := s.th[s.current]; x.owned == if x.locks == [] then NONE else x.locks[0].ceiling
  {
    CurrentKnown(s);
  }

  lemma ReleasePrompt(s: State, l: Lock)
    requires Inv(s) && Prompt(s) && Release(s, l).Ok?
    ensures Prompt(Release(s, l).s)
  {
    hide Inv, Prompt, Without, CondReschedule;
    var x := Get(s.th, s.current);
    if l in s.owner {
      var r := SetLocks(s, Without(x.locks, l), x.frames, x.section).(owner := s.owner - {l});
      assert Inv(r) by { ReleasedInv(s, l); }
      CondPrompt(r);
    }
  }

  lemma LeavePrompt(s: State)
    requires Inv(s) && LeaveSection(s).Ok?
    ensures Prompt(LeaveSection(s).s)
  {
    hide Inv, Prompt, CondReschedule;
    var x := Get(s.th, s.current);
    var n := |x.frames| - 1;
    LeftInv(s);
    CondPrompt(SetLocks(s, x.locks, x.frames[..n], x.frames[n].saved));
  }

  // Whole runs

  predicate KeepsPrompt(s: State, a: Action) {
    a.DoSuspend? && a.t == s.current ==> SuspendKeeps(s)
  }

  /** No action misses a preemption, except self-suspension by a lock holder, and that exactly when
      a ready thread waited for the locks of the caller alone. */
  lemma StepPromptIff(s: State, a: Action)
    requires Inv(s) && Prompt(s) && Valid(a) && Step(s, a).Ok?
    ensures Prompt(Step(s, a).s) <==> KeepsPrompt(s, a)
  {
    hide Inv, NoneAbove, Acquire, Release, EnterSection, LeaveSection, BlockCurrent, Suspend, Resume, Start, Exec,
        ToSleep, Awake,
         LocksCeiling, SuspendKeeps;
    match a
    case DoAcquire(l) => AcquirePrompt(s, l);
    case DoRelease(l) => ReleasePrompt(s, l);
    case DoEnter(c) => EnterPrompt(s, c);
    case DoLeave => LeavePrompt(s);
    case DoBlock(d) => BlockPrompt(s, d);
    case DoSuspend(t) =>
      SuspendNotIdle(s, t);
      if t == s.current { SelfSuspendPromptIff(s); } else { SuspendOtherPrompt(s, t); }
    case DoResume(t) => ResumePrompt(s, t);
    case DoStart(t) => StartPrompt(s, t);
    case DoYield =>
    case DoTick =>
    case DoExec(now) => ExecPrompt(s, now);
    case DoIrqSleep(i, at) => SleepPrompt(s, Irq(i), at);
    case DoIrqResume(i) => QuietPrompt(s, s.(sleep := Awake(s.sleep, Irq(i)), polls := s.polls + {i}));
    case DoPoll => QuietPrompt(s, s.(polls := {}));
  }

  lemma BlockPrompt(s: State, d: Option<nat>)
    requires Inv(s) && BlockCurrent(s, d).Ok?
    ensures Prompt(BlockCurrent(s, d).s)
  {
    hide Inv;
    BlockPicksAboveCeilings(s, d);
  }

  lemma SuspendNotIdle(s: State, t: Tid)
    requires Suspend(s, t).Ok?
    ensures t != IDLE
  {
  }

  lemma QuietPrompt(s: State, r: State)
    requires Prompt(s) && r.th == s.th && r.ready == s.ready && r.blocked == s.blocked && r.current == s.current
    requires r.toEqual == s.toEqual && r.toHigher == s.toHigher
    ensures Prompt(r)
  {
  }

  lemma SleepPrompt(s: State, who: Who, at: nat)
    requires Prompt(s)
    ensures Prompt(ToSleep(s.(sleep := Awake(s.sleep, who)), who, at))
  {
    QuietPrompt(s, ToSleep(s.(sleep := Awake(s.sleep, who)), who, at));
  }

  predicate RunKeepsPrompt(s: State, run: seq<Action>)
    decreases |run|
  {
    run != [] ==>
      && Valid(run[0]) && KeepsPrompt(s, run[0])
      && (Step(s, run[0]).Ok? ==> RunKeepsPrompt(Step(s, run[0]).s, run[1..]))
  }

  /** In every run either a reschedule is pending or each ready thread is kept back, by the running
      thread or by a lock of a blocked or running thread. */
  lemma {:induction false} NoMissedPreemption(s: State, run: seq<Action>)
    requires Inv(s) && Prompt(s) && RunKeepsPrompt(s, run) && Run(s, run).Ok?
    ensures var r := Run(s, run).s;
            && Inv(r) && Prompt(r)
            && (r.Pending() || forall t :: t in Elems(r.ready) ==> KeptBack(r, t))
    decreases |run|
  {
    if run == [] {
      if !s.Pending() {
        forall t | t in Elems(s.ready) ensures KeptBack(s, t) {
          CeilingIsFullScan(s);
        }
      }
    } else {
      hide Inv, Prompt, Step, KeepsPrompt, KeptBack;
      StepInv(s, run[0]);
      StepPromptIff(s, run[0]);
      NoMissedPreemption(Step(s, run[0]).s, run[1..]);
    }
  }

  /** A thread no more urgent than the running one, or than a lock held by a running or blocked one. */
  ghost predicate KeptBack(s: State, t: Tid) {
    || ActiveOf(s.th, t) <= ActiveOf(s.th, s.current)
    || exists u :: u in Elems(s.blocked) && ActiveOf(s.th, t) <= LockPrioOf(s.th, u)
  }

  lemma InitPrompt(s: State)
    requires Init(s)
    ensures Prompt(s)
  {
  }
}
