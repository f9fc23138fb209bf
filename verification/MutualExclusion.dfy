/** Mutual exclusion without blocking: the immediate-ceiling protocol over whole runs. */
module MutualExclusion {
  import opened Wrappers
  import opened Lists
  import opened Kernel
  import opened KernelInvariants

  /** The idle thread is the only one at the lowest priority, and it takes no locks. */
  ghost predicate Bases(th: Threads) {
    && (forall t :: t in th && t != IDLE ==> th[t].base > MIN)
    && Get(th, IDLE).base == MIN && !Holds(Get(th, IDLE))
  }

  /** `x` has run on top of `y`: it was already more urgent before it took any lock. */
  predicate Over(x: Thread, y: Thread) { x.base > Active(y) }

  predicate Apart(th: Threads, t: Tid, u: Tid) {
    Over(Get(th, t), Get(th, u)) || Over(Get(th, u), Get(th, t))
  }

  /** Threads preempted while holding locks form a chain below the running thread. */
  ghost predicate Chain(th: Threads, current: Tid) { Below(th, current) && Pairwise(th, current) }

  ghost predicate Below(th: Threads, current: Tid) {
    forall t :: t != current && Holds(Get(th, t)) ==>
      Get(th, t).state == Ready && Over(Get(th, current), Get(th, t))
  }

  ghost predicate Pairwise(th: Threads, current: Tid) {
    forall t, u {:trigger Apart(th, t, u)} ::
      t != u && t != current && u != current && Holds(Get(th, t)) && Holds(Get(th, u)) ==> Apart(th, t, u)
  }

  ghost predicate Safe(s: State) { Bases(s.th) && Chain(s.th, s.current) }

  /** What the program must do for its part: block or suspend no lock holder, enter no section in
      the idle thread, and yield from a lock holder to no thread of equal priority. */
  predicate Keeps(s: State, a: Action) {
    match a
    case DoEnter(_) => s.current != IDLE
    case DoBlock(_) => !Holds(Get(s.th, s.current))
    case DoSuspend(t) => !Holds(Get(s.th, t))
    case DoExec(now) => s.toEqual ==> !YieldsToEqual(WakeExpired(s.(toEqual := false, toHigher := false), now))
    case _ => true
  }

  /** A lock holder runs and the most urgent ready thread has exactly its priority. */
  predicate YieldsToEqual(s: State) {
    Holds(Get(s.th, s.current)) && s.ready != [] && ActiveOf(s.th, s.ready[0]) == ActiveOf(s.th, s.current)
  }

  /** The head of the ready queue outranks every other preempted lock holder. */
  lemma HeadOutranks(s: State, h: Tid)
    requires Inv(s) && Safe(s) && s.ready != [] && h != s.current && h != s.ready[0] && Holds(Get(s.th, h))
    ensures Over(Get(s.th, s.ready[0]), Get(s.th, h))
  {
    hide BlockedOrdered, Sleeping, NeverLate, Exact, NoDup;
    var next := s.ready[0];
    HeadReady(s);
    assert h in Elems(s.ready);
    if Holds(Get(s.th, next)) {
      assert Apart(s.th, next, h);
    }
    var i := ElemsAt(s.ready, h);
    assert Rank(s.th, next) >= Rank(s.th, h);
    assert next in s.th;
    hide Located, ReadyOrdered;
    assert Exact(s.th[next]);
    BaseValid(s.th[next]);
  }

  lemma BaseValid(x: Thread)
    requires Exact(x)
    ensures x.base >= MIN
  {
  }

  /** The chain is about priorities, so it survives changes of execution state and of the running
      thread. */
  lemma PairwiseFrame(th: Threads, c: Tid, th': Threads, c': Tid)
    requires Chain(th, c) && OnlyStates(th, th')
    ensures Pairwise(th', c')
  {
    forall t, u | t != u && t != c' && u != c' && Holds(Get(th', t)) && Holds(Get(th', u))
      ensures Apart(th', t, u)
    {
      assert Get(th', t) == Get(th, t).(state := Get(th', t).state);
      assert Get(th', u) == Get(th, u).(state := Get(th', u).state);
      assert Apart(th, t, u);
    }
  }

  /** Moving a lock-free thread that is not running between queues disturbs nothing. */
  lemma SafeMove(s: State, r: State, t: Tid, x: ExecState)
    requires Safe(s) && r.th == SetState(s, t, x).th && r.current == s.current && !Holds(Get(s.th, t))
    ensures Safe(r)
  {
    SetStateScheduled(s, t, x);
    PairwiseFrame(s.th, s.current, r.th, r.current);
    hide Pairwise;
    assert forall u :: Get(r.th, u) == if u == t && t in s.th then s.th[t].(state := x) else Get(s.th, u);
  }

  lemma SwitchGet(s: State, next: Tid)
    requires next != s.current
    ensures forall u :: Get(Switch(s, next).th, u) ==
                        if u !in s.th then NOBODY else
                        if u == next then s.th[u].(state := Running) else
                        if u == s.current then s.th[u].(state := Ready) else s.th[u]
  {
  }

  /** A thread that outranks all other holders may run, whoever ran before. */
  lemma SafeSwitch(s: State, r: State, next: Tid)
    requires Safe(s) && next != s.current && r.th == Switch(s, next).th && r.current == next
    requires forall h :: h != next && Holds(Get(s.th, h)) ==> Over(Get(s.th, next), Get(s.th, h))
    ensures Safe(r)
  {
    hide Bases, Pairwise;
    SwitchGet(s, next);
    hide Switch;
    assert OnlyStates(s.th, r.th) by { hide Below; SwitchBases(s, next); }
    PairwiseFrame(s.th, s.current, r.th, next);
    hide OnlyStates;
    SwitchBases(s, next);
  }

  lemma SwitchBases(s: State, next: Tid)
    requires Bases(s.th) && next != s.current
    ensures Bases(Switch(s, next).th) && OnlyStates(s.th, Switch(s, next).th)
  {
    SwitchGet(s, next);
  }

  /** Under the discipline no blocked thread raises the ceiling, so a ready holder is never passed over. */
  lemma LeaveCpuSafe(s: State)
    requires Inv(s) && Safe(s) && !Holds(Get(s.th, s.current)) && s.current != IDLE
    ensures Safe(LeaveCpu(s))
  {
    hide ReadyOrdered, BlockedOrdered, Sleeping, NeverLate, Exact, NoDup, Owners;
    var (s1, next) := PopAbove(s, Max(LocksCeiling(s), MIN), IDLE);
    if s.blocked != [] {
      assert s.blocked[0] in Elems(s.blocked);
    }
    assert LocksCeiling(s) == NONE;
    forall h | h != next && Holds(Get(s.th, h)) ensures Over(Get(s.th, next), Get(s.th, h)) {
      assert h in Elems(s.ready);
      HeadAbove(s, h);
      if s.ready[0] != h {
        HeadOutranks(s, h);
      }
    }
    if s.ready != [] {
      HeadReady(s);
    }
    SafeSwitch(s, LeaveCpu(s), next);
  }

  lemma HeadAbove(s: State, h: Tid)
    requires Inv(s) && Safe(s) && h in Elems(s.ready)
    ensures s.ready != [] && ActiveOf(s.th, s.ready[0]) > MIN
  {
    var i := ElemsAt(s.ready, h);
    assert s.ready[0] in Elems(s.ready);
  }

  lemma BlockSafeIff(s: State, d: Option<nat>)
    requires Inv(s) && Safe(s) && s.current != IDLE
    ensures Safe(BlockCurrent(s, d).s) <==> !Holds(Get(s.th, s.current))
  {
    hide Located, Ordered, Single, Sleeping, NeverLate, AllExact, Owners, LeaveCpu, Bases, Chain;
    var r := BlockCurrent(s, d).s;
    LeaveCpuKeepsLocks(s);
    if Holds(Get(s.th, s.current)) {
      StoppedHolder(LeaveCpu(s), r, s.current, Blocked);
    } else {
      LeaveCpuSafe(s);
      SafeMove(LeaveCpu(s), r, s.current, Blocked);
    }
  }

  /** A lock holder that stops being ready breaks the chain. */
  lemma StoppedHolder(s: State, r: State, t: Tid, x: ExecState)
    requires Holds(Get(s.th, t)) && t != s.current && x != Ready
    requires r.th == SetState(s, t, x).th && r.current == s.current
    ensures !Safe(r)
  {
    assert Get(r.th, t).state == x;
  }

  lemma LeaveCpuKeepsLocks(s: State)
    requires Inv(s) && s.current != IDLE
    ensures forall t :: Holds(Get(LeaveCpu(s).th, t)) <==> Holds(Get(s.th, t))
    ensures LeaveCpu(s).current != s.current
  {
    hide Located, ReadyOrdered, BlockedOrdered, Sleeping, NeverLate, AllExact, NoDup, Owners, LeaveCpu, Elems;
    LeaveCpuInv(s);
  }

  lemma SuspendSafeIff(s: State, t: Tid)
    requires Inv(s) && Safe(s) && Suspend(s, t).Ok?
    ensures Safe(Suspend(s, t).s) <==> !Holds(Get(s.th, t))
  {
    hide Ordered, Single, Sleeping, NeverLate, AllExact, Owners, LeaveCpu, Without;
    var r := Suspend(s, t).s;
    if Get(s.th, t).state == Suspended {
      FreeUnlessReady(s, t);
    } else {
      assert Get(s.th, t).state == Running <==> t == s.current;
      hide Located, Bases, Chain;
      var s1 := if t == s.current then LeaveCpu(s) else s;
      if t == s.current {
        LeaveCpuKeepsLocks(s);
      }
      if Holds(Get(s.th, t)) {
        StoppedHolder(s1, r, t, Suspended);
      } else {
        if t == s.current {
          LeaveCpuSafe(s);
        }
        SafeMove(s1, r, t, Suspended);
      }
    }
  }

  lemma FreeUnlessReady(s: State, t: Tid)
    requires Safe(s) && t != s.current && Get(s.th, t).state != Ready
    ensures !Holds(Get(s.th, t))
  {
  }

  lemma MakeReadyThreads(s: State, t: Tid)
    ensures Get(s.th, t).state in {Blocked, Suspended, Started} ==> MakeReady(s, t).th == SetState(s, t, Ready).th
    ensures Get(s.th, t).state !in {Blocked, Suspended, Started} ==> MakeReady(s, t) == s
    ensures MakeReady(s, t).current == s.current
  {
  }

  lemma MakeReadySafe(s: State, t: Tid)
    requires Inv(s) && Safe(s)
    ensures Safe(MakeReady(s, t))
  {
    hide Located, Ordered, Single, Sleeping, NeverLate, AllExact, Owners, Bases, Chain, MakeReady;
    MakeReadyThreads(s, t);
    if Get(s.th, t).state in {Blocked, Suspended, Started} {
      NotCurrent(s, t);
      FreeUnlessReady(s, t);
      SafeMove(s, MakeReady(s, t), t, Ready);
    }
  }

  lemma StartSafe(s: State, t: Tid)
    requires Inv(s) && Safe(s) && Start(s, t).Ok?
    ensures Safe(Start(s, t).s)
  {
    var s1 := SetState(s, t, Started);
    if t in s.th {
      assert t != s.current;
      assert !Holds(Get(s.th, t));
      SafeMove(s, s1, t, Started);
    }
    StartedInv(s, t);
    hide Inv;
    MakeReadySafe(s1, t);
  }

  lemma {:induction false} WakeExpiredSafe(s: State, now: nat)
    requires Inv(s) && Safe(s)
    ensures Safe(WakeExpired(s, now))
    decreases |s.sleep|
  {
    hide Bases, Chain, MakeReady, Wake;
    if s.sleep == [] || s.sleep[0].at > now {
    } else {
      var s0 := s.(sleep := s.sleep[1..]);
      WakeInv(s);
      hide Inv;
      assert Safe(Wake(s0, s.sleep[0].who)) by { WakeSafe(s0, s.sleep[0].who); }
      WakeExpiredSafe(Wake(s0, s.sleep[0].who), now);
    }
  }

  lemma WakeSafe(s: State, who: Who)
    requires Inv(s) && Safe(s) && (who.Thr? ==>
        Get(s.th, who.t).state == Blocked && Wake(s, who) == MakeReady(s, who.t))
    ensures Safe(Wake(s, who))
  {
    if who.Thr? {
      MakeReadySafe(s, who.t);
    }
  }

  /** The exact condition under which a reschedule keeps lock holders below the running thread:
      it must not yield from a lock holder to a thread of equal priority. */
  lemma PreemptSafeIff(s: State, equal: bool)
    requires Inv(s) && Safe(s)
    ensures Safe(Preempt(s, equal)) <==>
            (equal ==> !YieldsToEqual(s))
  {
    hide ReadyOrdered, BlockedOrdered, Sleeping, NeverLate, NoDup, Owners;
    var c := s.current;
    if s.ready != [] && ActiveOf(s.th, s.ready[0])
        > (if equal then ActiveOf(s.th, c) as int - 1 else ActiveOf(s.th, c)) {
      var next := s.ready[0];
      HeadReady(s);
      assert next in s.th && c in s.th;
      BaseValid(s.th[next]);
      hide Exact, Elems;
      assert !Holds(Get(s.th, next)) by { CurrentOutranks(s, next); }
      var r := Preempt(s, equal);
      var s2 := Switch(s.(ready := s.ready[1..]), next);
      PreemptStates(s, next, r);
      if Holds(Get(s.th, c)) && ActiveOf(s.th, next) == ActiveOf(s.th, c) {
        assert !Over(Get(r.th, next), Get(r.th, c));
      } else {
        forall h | h != next && Holds(Get(s.th, h)) ensures Over(Get(s.th, next), Get(s.th, h)) {
          if h != c {
            HeadOutranks(s, h);
          }
        }
        hide Inv, Located;
        SafeSwitch(s, r, next);
      }
    }
  }

  lemma CurrentOutranks(s: State, next: Tid)
    requires Safe(s) && next != s.current && ActiveOf(s.th, next) >= ActiveOf(s.th, s.current)
    ensures !Holds(Get(s.th, next))
  {
  }

  lemma PreemptStates(s: State, next: Tid, r: State)
    requires next != s.current && s.current in s.th && next in s.th && s.ready != []
    requires r == ToReady(Switch(s.(ready := s.ready[1..]), next), s.current)
    ensures r.th == Switch(s, next).th && r.current == next
    ensures Get(r.th, next) == Get(s.th, next).(state := Running)
    ensures Get(r.th, s.current) == Get(s.th, s.current).(state := Ready)
  {
    var s2 := Switch(s.(ready := s.ready[1..]), next);
    assert r.th == s2.th;
  }

  lemma ExecSafeIff(s: State, now: nat)
    requires Inv(s) && Safe(s)
    ensures Safe(Exec(s, now)) <==> Keeps(s, DoExec(now))
  {
    hide Located, Ordered, Single, Sleeping, NeverLate, AllExact, Owners, Bases, Chain, WakeExpired, Preempt;
    var s0 := s.(toEqual := false, toHigher := false);
    FlagsInv(s, false, false);
    WakeExpiredInv(s0, now);
    WakeExpiredSafe(s0, now);
    PreemptSafeIff(WakeExpired(s0, now), s.toEqual);
  }

  /** The running thread may change its own lock priorities freely, except for the idle thread. */
  lemma SetLocksSafe(s: State, r: State, x: Thread)
    requires Safe(s) && s.current in s.th && r.th == s.th[s.current := x] && r.current == s.current
    requires x.base == s.th[s.current].base
    ensures Safe(r) <==> (s.current == IDLE ==> !Holds(x))
  {
    hide Pairwise;
    assert forall u :: u != s.current ==> Get(r.th, u) == Get(s.th, u);
    assert Pairwise(r.th, r.current) by { PairwiseAside(s.th, s.current, x); }
  }

  lemma PairwiseAside(th: Threads, c: Tid, x: Thread)
    requires Pairwise(th, c)
    ensures Pairwise(th[c := x], c)
  {
    var th' := th[c := x];
    forall t, u | t != u && t != c && u != c && Holds(Get(th', t)) && Holds(Get(th', u)) ensures Apart(th', t, u) {
      assert Get(th', t) == Get(th, t) && Get(th', u) == Get(th, u) && Apart(th, t, u);
    }
  }

  lemma AcquireSafe(s: State, l: Lock)
    requires Safe(s) && s.current in s.th && Acquire(s, l).Ok?
    ensures Safe(Acquire(s, l).s)
  {
    hide Bases, Chain;
    var r := Acquire(s, l).s;
    SetLocksSafe(s, r, r.th[s.current]);
  }

  lemma ReleaseSafe(s: State, l: Lock)
    requires Inv(s) && Safe(s) && Release(s, l).Ok?
    ensures Safe(Release(s, l).s)
  {
    hide Ordered, Single, Sleeping, NeverLate, Chain, Without;
    var r, x := Release(s, l).s, Get(s.th, s.current);
    CurrentKnown(s);
    if l in s.owner {
      assert Owns(s.owner, l, s.current);
      assert x.locks != [];
      ActiveIsMax(x);
      assert r.th == s.th[s.current := r.th[s.current]];
      hide Inv, Bases;
      SetLocksSafe(s, r, r.th[s.current]);
    }
  }

  lemma EnterSafeIff(s: State, c: Prio)
    requires Inv(s) && Safe(s) && c >= MIN
    ensures Safe(EnterSection(s, c)) <==> s.current != IDLE
  {
    hide Ordered, Single, Sleeping, NeverLate, Bases, Chain, Owners;
    CurrentKnown(s);
    var r := EnterSection(s, c);
    SetLocksSafe(s, r, r.th[s.current]);
  }

  lemma LeaveSafe(s: State)
    requires Inv(s) && Safe(s) && LeaveSection(s).Ok?
    ensures Safe(LeaveSection(s).s)
  {
    hide Ordered, Single, Sleeping, NeverLate, Chain, Owners;
    var r, x := LeaveSection(s).s, Get(s.th, s.current);
    CurrentKnown(s);
    ActiveIsMax(x);
    assert r.th == s.th[s.current := r.th[s.current]];
    hide Inv;
    SetLocksSafe(s, r, r.th[s.current]);
  }

  /** An action keeps preempted lock holders below the running thread exactly when it is one the
      program may take. */
  lemma StepSafeIff(s: State, a: Action)
    requires Inv(s) && Safe(s) && Valid(a) && Step(s, a).Ok?
    ensures Safe(Step(s, a).s) <==> Keeps(s, a)
  {
    hide Inv, Bases, Chain, Suspend, MakeReady, Start, Exec, ToSleep, Awake, WakeExpired, LeaveCpu,
         Acquire, Release, EnterSection, LeaveSection;
    match a
    case DoAcquire(l) => CurrentKnown(s); AcquireSafe(s, l);
    case DoRelease(l) => ReleaseSafe(s, l);
    case DoEnter(c) => EnterSafeIff(s, c);
    case DoLeave => LeaveSafe(s);
    case DoBlock(d) => BlockSafeIff(s, d);
    case DoSuspend(t) => SuspendSafeIff(s, t);
    case DoResume(t) => MakeReadySafe(s, t);
    case DoStart(t) => StartSafe(s, t);
    case DoYield =>
    case DoTick =>
    case DoExec(now) => ExecSafeIff(s, now);
    case DoIrqSleep(i, at) => ToSleepThreads(s, Irq(i), at);
    case DoIrqResume(_) =>
    case DoPoll =>
  }

  lemma ToSleepThreads(s: State, who: Who, at: nat)
    ensures var r := ToSleep(s.(sleep := Awake(s.sleep, who)), who, at); r.th == s.th && r.current == s.current
  {
  }

  // Whole runs

  /** Every action of the run is one that the program may take where it takes it. */
  predicate Obeys(s: State, run: seq<Action>)
    decreases |run|
  {
    run != [] ==>
      && Valid(run[0]) && Keeps(s, run[0])
      && (Step(s, run[0]).Ok? ==> Obeys(Step(s, run[0]).s, run[1..]))
  }

  /** No other thread holds a lock or a section that the running thread is entitled to. */
  ghost predicate Exclusive(s: State) {
    forall t :: t != s.current ==>
      && (forall i :: 0 <= i < |Get(s.th, t).locks| ==> Get(s.th, t).locks[i].ceiling < Get(s.th, s.current).base)
      && (forall i :: 0 <= i < |Get(s.th, t).frames| ==> Get(s.th, t).frames[i].ceiling < Get(s.th, s.current).base)
  }

  lemma SafeExclusive(s: State)
    requires Inv(s) && Safe(s)
    ensures Exclusive(s)
  {
    hide Located, Ordered, Single, Sleeping, NeverLate, Owners, Bases, Pairwise, Exact;
    forall t | t != s.current && t in s.th
      ensures forall i :: 0 <= i < |s.th[t].locks| ==> s.th[t].locks[i].ceiling < Get(s.th, s.current).base
      ensures forall i :: 0 <= i < |s.th[t].frames| ==> s.th[t].frames[i].ceiling < Get(s.th, s.current).base
    {
      ActiveIsMax(s.th[t]);
      assert Get(s.th, t) == s.th[t];
    }
  }

  /** A thread that passes the ceiling and recursion checks finds the lock free. */
  lemma LockIsFree(s: State, l: Lock)
    requires Inv(s) && Safe(s) && ActiveOf(s.th, s.current) <= l.ceiling && !Owns(s.owner, l, s.current)
    ensures l !in s.owner
  {
    hide Located, Ordered, Single, Sleeping, NeverLate, Bases, Chain, AllExact;
    if l in s.owner {
      var t := s.owner[l];
      assert Owns(s.owner, l, t);
      var i := ElemsAt(Get(s.th, t).locks, l);
      SafeExclusive(s);
    }
  }

  /** Mutual exclusion over whole runs: the owner exchange of `acquire_scoped_lock` never fails,
      and every reachable state keeps locks and sections exclusive. */
  lemma {:induction false} CeilingMutualExclusion(s: State, run: seq<Action>)
    requires Inv(s) && Safe(s) && Obeys(s, run)
    ensures Run(s, run) != Halt(LockAlreadyOwned)
    ensures Run(s, run).Ok? ==> Inv(Run(s, run).s) && Safe(Run(s, run).s) && Exclusive(Run(s, run).s)
    decreases |run|
  {
    hide Inv, Safe, Exclusive, Keeps, Step;
    if run == [] {
      SafeExclusive(s);
    } else {
      assert Step(s, run[0]) != Halt(LockAlreadyOwned) by { NoConflict(s, run[0]); }
      if Step(s, run[0]).Ok? {
        StepInv(s, run[0]);
        StepSafeIff(s, run[0]);
        CeilingMutualExclusion(Step(s, run[0]).s, run[1..]);
      }
    }
  }

  lemma NoConflict(s: State, a: Action)
    requires Inv(s) && Safe(s)
    ensures Step(s, a) != Halt(LockAlreadyOwned)
  {
    hide Inv, Safe;
    if a.DoAcquire? && a.l in s.owner && !Owns(s.owner, a.l, s.current) && ActiveOf(s.th, s.current) <= a.l.ceiling {
      LockIsFree(s, a.l);
    }
  }

  lemma InitSafe(s: State)
    requires Init(s) && forall t :: t in s.th && t != IDLE ==> s.th[t].base > MIN
    ensures Inv(s) && Safe(s)
  {
    InitInv(s);
  }
}
