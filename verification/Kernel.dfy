/** The fixed-priority scheduler and the immediate-priority-ceiling locks as one state machine.

    Priorities are the `AnyPriority` codes: -1 for the invalid priority, 0..255 for threads and
    0x4000 + level for interrupts. Module `Priority` proves that comparing codes is comparing
    priorities and that the maximum of codes is the maximum of priorities. */
module Kernel {
  import opened Wrappers
  import opened Lists

  type Prio = p: int | -1 <= p
  type Tid = int

  const NONE: Prio := -1
  const MIN: Prio := 0
  const INTERRUPT_BIT := 0x4000
  const IDLE: Tid := 1

  datatype ExecState = Created | Started | Ready | Running | Blocked | Suspended

  datatype Lock = Lock(id: nat, ceiling: Prio)

  /** A live ceiling section: its ceiling and the section priority its guard will restore. */
  datatype Frame = Frame(ceiling: Prio, saved: Prio)

  /** `section` and `owned` are the two halves of `lock_priorities`; `locks` is the list of owned
      scoped locks; `threshold` is the interrupt threshold last written by the thread. */
  datatype Thread = Thread(
    base: Prio, state: ExecState, section: Prio, owned: Prio,
    locks: seq<Lock>, frames: seq<Frame>, threshold: nat)

  type Threads = map<Tid, Thread>

  datatype Who = Thr(t: Tid) | Irq(i: nat)

  /** A sleep queue member with the deadline it was queued under. */
  datatype Sleeper = Sleeper(who: Who, at: nat)

  datatype State = State(
    th: Threads,
    ready: seq<Tid>, blocked: seq<Tid>, suspended: seq<Tid>, sleep: seq<Sleeper>,
    current: Tid,
    toEqual: bool, toHigher: bool,
    alarm: Option<nat>,
    owner: map<Lock, Tid>,
    polls: set<nat>)
  {
    ghost predicate Pending() { toEqual || toHigher }
  }

  datatype Fault =
    | IdleThread | RecursiveLock | CeilingViolation | LockAlreadyOwned | OwnerViolation
    | NodeInList | NotStarted | StartedTwice | NoSection

  datatype Outcome = Ok(s: State) | Halt(why: Fault)

  function Max(a: int, b: int): (m: int)
    ensures m >= a && m >= b && (m == a || m == b)
  {
    if a > b then a else b
  }

  // Priorities of one thread

  function LockPrio(x: Thread): Prio { Max(x.section, x.owned) }

  function Active(x: Thread): Prio { Max(x.base, LockPrio(x)) }

  predicate Holds(x: Thread) { LockPrio(x) != NONE }

  function Level(c: Prio): nat { if c >= INTERRUPT_BIT then c - INTERRUPT_BIT else 0 }

  const NOBODY: Thread := Thread(MIN, Created, NONE, NONE, [], [], 0)

  function Get(th: Threads, t: Tid): Thread { if t in th then th[t] else NOBODY }

  function ActiveOf(th: Threads, t: Tid): Prio { Active(Get(th, t)) }

  function LockPrioOf(th: Threads, t: Tid): Prio { LockPrio(Get(th, t)) }

  // Queues

  function SetState(s: State, t: Tid, x: ExecState): (r: State)
  {
    if t in s.th then s.(th := s.th[t := s.th[t].(state := x)]) else s
  }

  /** Lock-free threads join the back of their priority level, lock holders its front. */
  function ReadyAfter(th: Threads, t: Tid): Tid -> bool {
    var p := ActiveOf(th, t);
    if Holds(Get(th, t)) then q => ActiveOf(th, q) > p else q => ActiveOf(th, q) >= p
  }

  function ToReady(s: State, t: Tid): (r: State)
  {
    var s1 := SetState(s, t, Ready);
    if t == IDLE then s1
    else s1.(ready := InsertAfter(s.ready, t, ReadyAfter(s.th, t)))
  }

  function BlockedAfter(th: Threads, t: Tid): Tid -> bool {
    var p := LockPrioOf(th, t);
    q => LockPrioOf(th, q) != NONE && (p == NONE || LockPrioOf(th, q) >= p)
  }

  function ToBlocked(s: State, t: Tid): (r: State)
  {
    SetState(s, t, Blocked).(blocked := InsertAfter(s.blocked, t, BlockedAfter(s.th, t)))
  }

  function ToSuspended(s: State, t: Tid): (r: State)
  {
    SetState(s, t, Suspended).(suspended := s.suspended + [t])
  }

  function Earliest(sleep: seq<Sleeper>): Option<nat> {
    if sleep == [] then None else Some(sleep[0].at)
  }

  function SleepAfter(at: nat): Sleeper -> bool { (e: Sleeper) => e.at <= at }

  function ToSleep(s: State, who: Who, at: nat): (r: State) {
    var q := InsertAfter(s.sleep, Sleeper(who, at), SleepAfter(at));
    s.(sleep := q, alarm := Earliest(q))
  }

  /** The sleep queue without `who`. */
  function Awake(sleep: seq<Sleeper>, who: Who): (r: seq<Sleeper>) {
    if sleep == [] then [] else
    if sleep[0].who == who then sleep[1..] else [sleep[0]] + Awake(sleep[1..], who)
  }

  // Scheduling

  function LocksCeiling(s: State): Prio {
    if s.blocked == [] then LockPrioOf(s.th, s.current)
    else Max(LockPrioOf(s.th, s.blocked[0]), LockPrioOf(s.th, s.current))
  }

  function Switch(s: State, next: Tid): (r: State)
  {
    SetState(SetState(s, next, Running), s.current, Ready).(current := next)
  }

  /** Takes the head of the ready queue when it runs above `floor`, else `other`. */
  function PopAbove(s: State, floor: int, other: Tid): (r: (State, Tid)) {
    if s.ready != [] && ActiveOf(s.th, s.ready[0]) > floor
    then (s.(ready := s.ready[1..]), s.ready[0])
    else (s, other)
  }

  /** The thread that runs when the current one stops: above every lock ceiling, or idle. */
  function LeaveCpu(s: State): (r: State)
  {
    var (s1, next) := PopAbove(s, Max(LocksCeiling(s), MIN), IDLE);
    Switch(s1, next)
  }

  function BlockCurrent(s: State, deadline: Option<nat>): (r: Outcome)
  {
    if s.current == IDLE then Halt(IdleThread) else
    var s1 := LeaveCpu(s);
    var s2 := match deadline case Some(at) => ToSleep(s1, Thr(s.current), at) case None => s1;
    Ok(ToBlocked(s2, s.current))
  }

  function Suspend(s: State, t: Tid): (r: Outcome)
  {
    if t == IDLE then Halt(IdleThread) else
    match Get(s.th, t).state
    case Ready => Ok(ToSuspended(s.(ready := Without(s.ready, t)), t))
    case Running => Ok(ToSuspended(LeaveCpu(s), t))
    case Blocked => Halt(NodeInList)
    case Suspended => Ok(s)
    case Created => Halt(NotStarted)
    case Started => Ok(ToSuspended(s, t))
  }

  /** Makes a thread ready as its state asks, before the preemption check. */
  function MakeReady(s: State, t: Tid): (r: State)
  {
    match Get(s.th, t).state
    case Blocked => ToReady(s.(sleep := Awake(s.sleep, Thr(t)), blocked := Without(s.blocked, t)), t)
    case Suspended => ToReady(s.(suspended := Without(s.suspended, t)), t)
    case Started => ToReady(s, t)
    case _ => s
  }

  function Resume(s: State, t: Tid): (r: State)
  {
    var s1 := MakeReady(s, t);
    if Max(ActiveOf(s1.th, s1.current), LocksCeiling(s1)) < ActiveOf(s1.th, t)
    then s1.(toHigher := true) else s1
  }

  function Start(s: State, t: Tid): (r: Outcome)
  {
    if Get(s.th, t).state != Created then Halt(StartedTwice)
    else Ok(Resume(SetState(s, t, Started), t))
  }

  /** Wakes one sleeper that has left the sleep queue. */
  function Wake(s: State, who: Who): (r: State) {
    match who
    case Irq(i) => s.(polls := s.polls + {i})
    case Thr(t) =>
      if Get(s.th, t).state == Blocked
      then ToReady(s.(blocked := Without(s.blocked, t)), t) else s
  }

  function WakeExpired(s: State, now: nat): (r: State)
    decreases |s.sleep|
  {
    if s.sleep == [] || s.sleep[0].at > now then s.(alarm := Earliest(s.sleep))
    else
      var e := s.sleep[0];
      var s1 := Wake(s.(sleep := s.sleep[1..]), e.who);
      WakeExpired(s1, now)
  }

  function Preempt(s: State, equal: bool): (r: State)
  {
    var p: int := ActiveOf(s.th, s.current);
    var (s1, next) := PopAbove(s, if equal then p - 1 else p, s.current);
    if next == s.current then s1 else ToReady(Switch(s1, next), s.current)
  }

  /** Executes a pending reschedule, as interrupt exit does. */
  function Exec(s: State, now: nat): (r: State)
  {
    if !s.toEqual && !s.toHigher then s else
    var s1 := WakeExpired(s.(toEqual := false, toHigher := false), now);
    Preempt(s1, s.toEqual)
  }

  function CondReschedule(s: State): (r: State) {
    if s.ready != [] && ActiveOf(s.th, s.current) < ActiveOf(s.th, s.ready[0])
    then s.(toHigher := true) else s
  }

  // Ceiling locks, always taken and released by the current thread

  /** Writes the lock priorities of the current thread and the threshold that follows. */
  function SetLocks(s: State, locks: seq<Lock>, frames: seq<Frame>, section: Prio): (r: State)
  {
    var owned := if locks == [] then NONE else locks[0].ceiling;
    var x := Get(s.th, s.current).(locks := locks, frames := frames, section := section, owned := owned,
                              threshold := Level(Max(section, owned)));
    s.(th := s.th[s.current := x])
  }

  function LockAfter(l: Lock): Lock -> bool { (a: Lock) => a.ceiling > l.ceiling }

  function Acquire(s: State, l: Lock): (r: Outcome)
  {
    var x := Get(s.th, s.current);
    if s.current == IDLE then Halt(IdleThread) else
    if l in s.owner && s.owner[l] == s.current then Halt(RecursiveLock) else
    if Active(x) > l.ceiling then Halt(CeilingViolation) else
    if l in s.owner then Halt(LockAlreadyOwned) else
    var locks := InsertAfter(x.locks, l, LockAfter(l));
    Ok(SetLocks(s, locks, x.frames, x.section).(owner := s.owner[l := s.current]))
  }

  function Release(s: State, l: Lock): (r: Outcome)
  {
    var x := Get(s.th, s.current);
    if l !in s.owner then Ok(s) else
    if s.owner[l] != s.current then Halt(OwnerViolation) else
    Ok(CondReschedule(SetLocks(s, Without(x.locks, l), x.frames, x.section).(owner := s.owner - {l})))
  }

  function EnterSection(s: State, ceiling: Prio): (r: State)
  {
    var x := Get(s.th, s.current);
    SetLocks(s, x.locks, x.frames + [Frame(ceiling, x.section)], Max(x.section, Max(ceiling, x.base)))
  }

  function LeaveSection(s: State): (r: Outcome)
  {
    var x := Get(s.th, s.current);
    var n := |x.frames|;
    if n == 0 then Halt(NoSection) else
    Ok(CondReschedule(SetLocks(s, x.locks, x.frames[..n - 1], x.frames[n - 1].saved)))
  }

  // Runs

  datatype Action =
    | DoAcquire(l: Lock) | DoRelease(l: Lock) | DoEnter(c: Prio) | DoLeave
    | DoBlock(deadline: Option<nat>) | DoSuspend(t: Tid) | DoResume(t: Tid) | DoStart(t: Tid)
    | DoYield | DoTick | DoExec(now: nat)
    | DoIrqSleep(i: nat, at: nat) | DoIrqResume(i: nat) | DoPoll

  /** Ceilings are valid priorities. */
  predicate Valid(a: Action) {
    (a.DoEnter? ==> a.c >= MIN) && (a.DoAcquire? ==> a.l.ceiling >= MIN)
  }

  function Step(s: State, a: Action): (r: Outcome)
  {
    match a
    case DoAcquire(l) => Acquire(s, l)
    case DoRelease(l) => Release(s, l)
    case DoEnter(c) => Ok(EnterSection(s, c))
    case DoLeave => LeaveSection(s)
    case DoBlock(d) => BlockCurrent(s, d)
    case DoSuspend(t) => Suspend(s, t)
    case DoResume(t) => Ok(Resume(s, t))
    case DoStart(t) => Start(s, t)
    case DoYield => Ok(s.(toEqual := true, toHigher := true))
    case DoTick => Ok(s.(toHigher := true))
    case DoExec(now) => Ok(Exec(s, now))
    case DoIrqSleep(i, at) => Ok(ToSleep(s.(sleep := Awake(s.sleep, Irq(i))), Irq(i), at))
    case DoIrqResume(i) => Ok(s.(sleep := Awake(s.sleep, Irq(i)), polls := s.polls + {i}))
    case DoPoll => Ok(s.(polls := {}))
  }
}
