/** What the invariants of the kernel mean for every run, and the lock operations that undo each other. */
module KernelRuns {
  import opened Wrappers
  import opened Lists
  import opened Kernel
  import opened KernelInvariants

  /** In every run each thread is in exactly one place, the one its state names, and only blocked
      threads sleep. */
  lemma OnePlaceEach(s: State, run: seq<Action>, t: Tid)
    requires Init(s) && AllValid(run) && Run(s, run).Ok?
    ensures var r := Run(s, run).s;
      && (t == r.current <==> Get(r.th, t).state == Running)
      && (t in Elems(r.ready) <==> Get(r.th, t).state == Ready && t != IDLE)
      && (t in Elems(r.blocked) <==> Get(r.th, t).state == Blocked)
      && (t in Elems(r.suspended) <==> Get(r.th, t).state == Suspended)
      && NoDup(r.ready) && NoDup(r.blocked) && NoDup(r.suspended)
      && (forall e :: e in Elems(r.sleep) && e.who == Thr(t) ==> Get(r.th, t).state == Blocked)
  {
    InitInv(s);
    RunInv(s, run);
    hide Run, Init, Elems, NoDup, Ordered, AllExact, Owners;
  }

  /** In every run a thread's priority is the maximum of its base, its live section ceilings and its
      lock ceilings, each section will restore what held before it, the threshold last written is
      the interrupt level of the lock ceiling, and a thread owns exactly the locks in its list. */
  lemma PrioritiesExact(s: State, run: seq<Action>, t: Tid)
    requires Init(s) && AllValid(run) && Run(s, run).Ok? && t in Run(s, run).s.th
    ensures var r := Run(s, run).s; var x := r.th[t];
      && Active(x) >= x.base
      && (forall i :: 0 <= i < |x.frames| ==> x.frames[i].ceiling <= Active(x))
      && (forall i :: 0 <= i < |x.locks| ==> x.locks[i].ceiling <= Active(x))
      && (Active(x) == x.base || (exists i :: 0 <= i < |x.frames| && x.frames[i].ceiling == Active(x))
          || (exists i :: 0 <= i < |x.locks| && x.locks[i].ceiling == Active(x)))
      && (forall i :: 0 <= i < |x.frames| ==> x.frames[i].saved == SectionPrio(x.base, x.frames[..i]))
      && x.threshold == Level(LockPrio(x))
      && (forall l :: l in Elems(x.locks) <==> l in r.owner && r.owner[l] == t)
  {
    InitInv(s);
    RunInv(s, run);
    var r := Run(s, run).s;
    hide Run, Init, Elems, NoDup, Ordered, Placed, Sleeping;
    assert Exact(r.th[t]);
    ActiveIsMax(r.th[t]);
    assert Get(r.th, t) == r.th[t];
  }

  /** Writing lock priorities twice is writing them once. */
  lemma SetLocksTwice(s: State, locks: seq<Lock>, frames: seq<Frame>, section: Prio, owner: map<Lock, Tid>,
                      locks': seq<Lock>, frames': seq<Frame>, section': Prio)
    requires s.current in s.th
    ensures var r := SetLocks(s, locks, frames, section).(owner := owner);
      && SetLocks(r, locks', frames', section').th == SetLocks(s, locks', frames', section').th
      && r.current == s.current && Get(r.th, s.current) == Get(s.th, s.current).(locks := locks, frames := frames,
         section := section, owned := Get(r.th, s.current).owned, threshold := Get(r.th, s.current).threshold)
  {
    hide Level;
    var r := SetLocks(s, locks, frames, section).(owner := owner);
    assert SetLocks(r, locks', frames', section').th == SetLocks(s, locks', frames', section').th;
  }

  /** Exact lock priorities are what writing them would give. */
  lemma SetLocksSame(s: State)
    requires s.current in s.th && Exact(s.th[s.current])
    ensures var x := s.th[s.current]; SetLocks(s, x.locks, x.frames, x.section).th == s.th
  {
    hide SectionPrio, FramesExact, LocksExact, Level;
    var x := s.th[s.current];
    assert SetLocks(s, x.locks, x.frames, x.section).th == s.th[s.current := x];
  }

  lemma CondRescheduleKeeps(s: State)
    ensures CondReschedule(s).th == s.th && CondReschedule(s).owner == s.owner
  {
  }

  /** Leaving a section right after entering it restores every priority and the threshold. */
  lemma EnterThenLeave(s: State, c: Prio)
    requires Inv(s) && c >= MIN
    ensures LeaveSection(EnterSection(s, c)).Ok? && LeaveSection(EnterSection(s, c)).s.th == s.th
  {
    CurrentKnown(s);
    hide Placed, Ordered, Sleeping, Owners, NoDup, Elems, SetLocks, CondReschedule, Exact;
    var x := s.th[s.current];
    var frames, section := x.frames + [Frame(c, x.section)], Max(x.section, Max(c, x.base));
    assert frames[..|x.frames|] == x.frames;
    var r := SetLocks(s, x.locks, frames, section);
    SetLocksOwner(s, x.locks, frames, section);
    SetLocksTwice(s, x.locks, frames, section, s.owner, x.locks, x.frames, x.section);
    CondRescheduleKeeps(SetLocks(r, x.locks, x.frames, x.section));
    SetLocksSame(s);
  }

  lemma SetLocksOwner(s: State, locks: seq<Lock>, frames: seq<Frame>, section: Prio)
    ensures var r := SetLocks(s, locks, frames, section); r.(owner := s.owner) == r
  {
  }

  lemma WithoutInserted(q: seq<Lock>, l: Lock)
    requires l !in Elems(q)
    ensures Without(InsertAfter(q, l, LockAfter(l)), l) == q
  {
    hide Elems, NoDup, Without;
    var k := Scan(q, LockAfter(l));
    ElemsConcat(q[..k], q[k..]);
    assert q[..k] + q[k..] == q;
    WithoutAt(q[..k], l, q[k..]);
  }

  /** Releasing a scoped lock right after acquiring it restores every priority, the threshold, the
      lock list and the owners. */
  lemma AcquireThenRelease(s: State, l: Lock)
    requires Inv(s) && Acquire(s, l).Ok?
    ensures var r := Release(Acquire(s, l).s, l);
      r.Ok? && r.s.th == s.th && r.s.owner == s.owner
  {
    hide Inv, Elems, InsertAfter, Without, SetLocks, CondReschedule, LockAfter, Acquire, Release;
    Acquired(s, l);
    var x, r := s.th[s.current], Acquire(s, l).s;
    var locks := InsertAfter(x.locks, l, LockAfter(l));
    WithoutInserted(x.locks, l);
    SetLocksTwice(s, locks, x.frames, x.section, s.owner[l := s.current], x.locks, x.frames, x.section);
    Released(r, l);
    CondRescheduleKeeps(SetLocks(r, x.locks, x.frames, x.section).(owner := r.owner - {l}));
    SetLocksSame(s);
    assert r.owner - {l} == s.owner;
  }

  lemma Acquired(s: State, l: Lock)
    requires Inv(s) && Acquire(s, l).Ok?
    ensures s.current in s.th && Exact(s.th[s.current]) && l !in s.owner && l !in Elems(s.th[s.current].locks)
    ensures var x := s.th[s.current];
      var locks := InsertAfter(x.locks, l, LockAfter(l));
      Acquire(s, l).s == SetLocks(s, locks, x.frames, x.section).(owner := s.owner[l := s.current])
  {
    CurrentKnown(s);
    hide Placed, Ordered, Sleeping, NoDup, Elems, InsertAfter, SetLocks, Exact, LockAfter;
    NotListed(s, l);
  }

  lemma Released(s: State, l: Lock)
    requires Owns(s.owner, l, s.current)
    ensures var x := Get(s.th, s.current);
      var locks := Without(x.locks, l);
      Release(s, l) == Ok(CondReschedule(SetLocks(s, locks, x.frames, x.section).(owner := s.owner - {l})))
  {
  }

  lemma NotListed(s: State, l: Lock)
    requires Owners(s) && l !in s.owner
    ensures l !in Elems(Get(s.th, s.current).locks)
  {
    assert !Owns(s.owner, l, s.current);
  }

  // What scheduling leaves alone

  predicate Locking(a: Action) { a.DoAcquire? || a.DoRelease? || a.DoEnter? || a.DoLeave? }

  lemma IdleCannotBlock(k: State, d: Option<nat>)
    requires BlockCurrent(k, d).Ok?
    ensures k.current != IDLE
  {
  }

  lemma BlockOnlyStates(k: State, d: Option<nat>)
    requires Inv(k) && k.current != IDLE
    ensures OnlyStates(k.th, BlockCurrent(k, d).s.th)
  {
    hide LeaveCpu, InsertAfter, Elems, NoDup, BlockedAfter, SleepAfter, Located, Ordered, AllExact, Owners, Sleeping;
    LeaveCpuInv(k);
    var s1 := LeaveCpu(k);
    var s2 := match d case Some(at) => ToSleep(s1, Thr(k.current), at) case None => s1;
    SetStateScheduled(s2, k.current, Blocked);
  }

  lemma SuspendOnlyStates(k: State, t: Tid)
    requires Inv(k) && Suspend(k, t).Ok?
    ensures OnlyStates(k.th, Suspend(k, t).s.th)
  {
    hide LeaveCpu, Without, Elems, NoDup, OnlyStates;
    OnlyStatesRefl(k.th);
    if Get(k.th, t).state == Running {
      LeaveCpuInv(k);
      SuspendedOnlyStates(k, LeaveCpu(k), t);
    } else {
      SuspendedOnlyStates(k, k, t);
      SuspendedOnlyStates(k, k.(ready := Without(k.ready, t)), t);
    }
  }

  lemma SuspendedOnlyStates(k: State, s1: State, t: Tid)
    requires OnlyStates(k.th, s1.th)
    ensures OnlyStates(k.th, ToSuspended(s1, t).th)
  {
  }

  lemma StartOnlyStates(k: State, t: Tid)
    requires Inv(k) && Get(k.th, t).state == Created
    ensures OnlyStates(k.th, MakeReady(SetState(k, t, Started), t).th)
  {
    hide Inv, MakeReady;
    StartedInv(k, t);
    MakeReadyInv(SetState(k, t, Started), t);
  }

  /** Only lock operations change anything about a thread but its execution state. */
  lemma SchedulingOnlyStates(k: State, a: Action)
    requires Inv(k) && Valid(a) && Step(k, a).Ok? && !Locking(a)
    ensures OnlyStates(k.th, Step(k, a).s.th)
  {
    hide Inv, MakeReady, Exec, Suspend, BlockCurrent, OnlyStates;
    match a
    case DoBlock(d) => IdleCannotBlock(k, d); BlockOnlyStates(k, d);
    case DoSuspend(t) => SuspendOnlyStates(k, t);
    case DoResume(t) => MakeReadyInv(k, t);
    case DoStart(t) => StartOnlyStates(k, t);
    case DoExec(now) => ExecInv(k, now);
    case _ => OnlyStatesRefl(k.th);
  }

  /** No action changes a base priority. */
  lemma BaseKept(k: State, a: Action)
    requires Inv(k) && Valid(a) && Step(k, a).Ok?
    ensures forall t :: Get(Step(k, a).s.th, t).base == Get(k.th, t).base
  {
    if Locking(a) { LockingBase(k, a); }
    else {
      hide Step, Inv;
      SchedulingOnlyStates(k, a);
    }
  }

  lemma LockingBase(k: State, a: Action)
    requires Step(k, a).Ok? && Locking(a)
    ensures forall t :: Get(Step(k, a).s.th, t).base == Get(k.th, t).base
  {
    hide InsertAfter, Without;
  }
}
