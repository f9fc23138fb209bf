/** Wait queues of threads: the most urgent waiter first, the longest waiting among equals. */
module WaitQueue {
  import opened Wrappers
  import opened Lists
  import opened Kernel
  import KI = KernelInvariants
  import KR = KernelRuns
  import Timers
  import RS = RawScheduler

  /** Waiters queue by base priority, behind those of the same priority. */
  function WaitAfter(th: Threads, t: Tid): Tid -> bool {
    var p := Get(th, t).base;
    q => Get(th, q).base >= p
  }

  /** `ticket` records in what order threads began to wait. */
  datatype Sys = Sys(k: State, q: seq<Tid>, ticket: map<Tid, nat>, clock: nat)

  datatype Act = Wait | NotifyOne | NotifyAll | Other(a: Action)

  datatype Result = Fine(s: Sys) | Stop

  function ResumeAll(k: State, q: seq<Tid>): State
    decreases |q|
  {
    if q == [] then k else ResumeAll(Resume(k, q[0]), q[1..])
  }

  function Next(s: Sys, a: Act): Result {
    match a
    case Wait => (
      match BlockCurrent(s.k, None)
      case Ok(k) =>
        var t := s.k.current;
        Fine(Sys(k, InsertAfter(s.q, t, WaitAfter(s.k.th, t)), s.ticket[t := s.clock], s.clock + 1))
      case Halt(_) => Stop)
    case NotifyOne => Fine(if s.q == [] then s else s.(k := Resume(s.k, s.q[0]), q := s.q[1..]))
    case NotifyAll => Fine(s.(k := ResumeAll(s.k, s.q), q := []))
    case Other(b) => (
      match Step(s.k, b)
      case Ok(k) => Fine(s.(k := k))
      case Halt(_) => Stop)
  }

  /** Waiters are woken by notifications only. */
  ghost predicate Can(s: Sys, a: Act) {
    a.Other? ==> Valid(a.a) && !(a.a.DoResume? && a.a.t in Elems(s.q))
  }

  function Ticket(s: Sys, t: Tid): nat { if t in s.ticket then s.ticket[t] else 0 }

  /** `a` is served before `b`. */
  predicate Before(s: Sys, a: Tid, b: Tid) {
    var p, q := Get(s.k.th, a).base, Get(s.k.th, b).base;
    p > q || (p == q && Ticket(s, a) < Ticket(s, b))
  }

  ghost predicate Untimed(sleep: seq<Sleeper>, t: Tid) { forall e :: e in Elems(sleep) ==> e.who != Thr(t) }

  ghost predicate Waits(s: Sys, t: Tid) {
    Get(s.k.th, t).state == Blocked && Untimed(s.k.sleep, t) && Ticket(s, t) < s.clock
  }

  ghost predicate Served(s: Sys) { forall i, j :: 0 <= i < j < |s.q| ==> Before(s, s.q[i], s.q[j]) }

  ghost predicate Inv(s: Sys) {
    && KI.Inv(s.k) && NoDup(s.q) && Served(s)
    && forall t :: t in Elems(s.q) ==> Waits(s, t)
  }

  // Waiters stay blocked through everything but a notification

  lemma IsBlocked(k: State, t: Tid)
    requires KI.Inv(k)
    ensures Get(k.th, t).state == Blocked <==> t in Elems(k.blocked)
    ensures Get(k.th, t).state == Blocked ==> t != k.current && t in k.th
  {
    hide KI.Ordered, KI.Sleeping, KI.AllExact, KI.Owners, NoDup;
  }

  lemma BlockKeeps(k: State, d: Option<nat>, t: Tid)
    requires KI.Inv(k) && k.current != IDLE && t != k.current && t in Elems(k.blocked) && Untimed(k.sleep, t)
    ensures var r := BlockCurrent(k, d).s; t in Elems(r.blocked) && Untimed(r.sleep, t)
  {
    hide Elems, NoDup, LeaveCpu, InsertAfter, BlockedAfter, SleepAfter;
    KI.LeaveCpuInv(k);
    var s1 := LeaveCpu(k);
    var s2 := match d case Some(at) => ToSleep(s1, Thr(k.current), at) case None => s1;
    InsertElems(k.blocked, k.current, BlockedAfter(s2.th, k.current));
    if d.Some? { InsertElems(k.sleep, Sleeper(Thr(k.current), d.value), SleepAfter(d.value)); }
  }

  lemma BlockAddsCurrent(k: State)
    requires KI.Inv(k) && k.current != IDLE
    ensures var r := BlockCurrent(k, None).s; k.current in Elems(r.blocked) && Untimed(r.sleep, k.current)
  {
    hide Elems, NoDup, LeaveCpu, InsertAfter, BlockedAfter;
    KI.LeaveCpuInv(k);
    InsertElems(k.blocked, k.current, BlockedAfter(LeaveCpu(k).th, k.current));
    IsBlocked(k, k.current);
    assert KI.Placed(k, {});
  }

  lemma ResumeKeeps(k: State, u: Tid, t: Tid)
    requires KI.Inv(k) && u != t && t in Elems(k.blocked) && Untimed(k.sleep, t)
    ensures var r := Resume(k, u); t in Elems(r.blocked) && Untimed(r.sleep, t)
  {
    hide Elems, NoDup, ToReady;
    WithoutElems(k.blocked, u);
    KI.AwakeElems(k.sleep, Thr(u));
    Timers.ToReadyKeeps(k.(sleep := Awake(k.sleep, Thr(u)), blocked := Without(k.blocked, u)), u);
    Timers.ToReadyKeeps(k.(suspended := Without(k.suspended, u)), u);
    Timers.ToReadyKeeps(k, u);
  }

  lemma ExecKeeps(k: State, now: nat, t: Tid)
    requires KI.Inv(k) && t in Elems(k.blocked) && Untimed(k.sleep, t)
    ensures var r := Exec(k, now); t in Elems(r.blocked) && Untimed(r.sleep, t)
  {
    hide Elems, NoDup, WakeExpired, Preempt;
    var s0 := k.(toEqual := false, toHigher := false);
    KI.FlagsInv(k, false, false);
    Timers.WakesExactlyTheDue(s0, now);
    KI.WakeExpiredInv(s0, now);
    var s1 := WakeExpired(s0, now);
    IsBlocked(s0, t);
    IsBlocked(s1, t);
    Timers.PreemptKeeps(s1, k.toEqual);
  }

  lemma StepKeeps(k: State, a: Action, t: Tid)
    requires KI.Inv(k) && Valid(a) && Step(k, a).Ok? && !(a.DoResume? && a.t == t)
    requires Get(k.th, t).state == Blocked && Untimed(k.sleep, t)
    ensures var r := Step(k, a).s; Get(r.th, t).state == Blocked && Untimed(r.sleep, t)
  {
    hide KI.Inv, Elems, Resume, Exec, Suspend, BlockCurrent, Acquire, Release, EnterSection, LeaveSection;
    var r := Step(k, a).s;
    KI.StepInv(k, a);
    IsBlocked(k, t);
    IsBlocked(r, t);
    match a
    case DoBlock(d) => KR.IdleCannotBlock(k, d); BlockKeeps(k, d, t);
    case DoSuspend(u) => Timers.SuspendKeeps(k, u);
    case DoResume(u) => ResumeKeeps(k, u, t);
    case DoStart(u) => KI.StartedInv(k, u); ResumeKeeps(SetState(k, u, Started), u, t);
    case DoExec(now) => ExecKeeps(k, now, t);
    case DoIrqSleep(i, at) => IrqKeeps(k, i, at, t);
    case DoIrqResume(i) => IrqKeeps(k, i, 0, t);
    case DoAcquire(_) => Timers.LockingKeeps(k, a);
    case DoRelease(_) => Timers.LockingKeeps(k, a);
    case DoEnter(_) => Timers.LockingKeeps(k, a);
    case DoLeave => Timers.LockingKeeps(k, a);
    case _ =>
  }

  lemma IrqKeeps(k: State, i: nat, at: nat, t: Tid)
    requires KI.Inv(k) && Untimed(k.sleep, t)
    ensures Untimed(Awake(k.sleep, Irq(i)), t)
    ensures Untimed(ToSleep(k.(sleep := Awake(k.sleep, Irq(i))), Irq(i), at).sleep, t)
  {
    hide Elems, NoDup, InsertAfter, SleepAfter;
    KI.AwakeElems(k.sleep, Irq(i));
    InsertElems(Awake(k.sleep, Irq(i)), Sleeper(Irq(i), at), SleepAfter(at));
  }

  // Every step keeps the invariant

  lemma OtherInv(s: Sys, a: Action)
    requires Inv(s) && Can(s, Other(a)) && Step(s.k, a).Ok?
    ensures Inv(s.(k := Step(s.k, a).s))
  {
    hide KI.Inv, Step, NoDup, Elems;
    KI.StepInv(s.k, a);
    KR.BaseKept(s.k, a);
    forall t | t in Elems(s.q) ensures Waits(s.(k := Step(s.k, a).s), t) { StepKeeps(s.k, a, t); }
  }

  lemma WaitInv(s: Sys)
    requires Inv(s) && Next(s, Wait).Fine?
    ensures Inv(Next(s, Wait).s)
  {
    hide KI.Inv, BlockCurrent, NoDup, Elems, InsertAfter, WaitAfter;
    var t, r := s.k.current, Next(s, Wait).s;
    KR.IdleCannotBlock(s.k, None);
    KI.StepInv(s.k, DoBlock(None));
    KR.BaseKept(s.k, DoBlock(None));
    BlockAddsCurrent(s.k);
    IsBlocked(r.k, t);
    IsBlocked(s.k, t);
    InsertElems(s.q, t, WaitAfter(s.k.th, t));
    forall u | u in Elems(r.q) ensures Waits(r, u) {
      if u != t { StepKeeps(s.k, DoBlock(None), u); }
    }
    hide Waits;
    WaitServed(s, r, t);
  }

  /** The new waiter stands behind everyone of at least its base priority and before everyone below it, and
      draws the next ticket. */
  lemma WaitPosition(s: Sys)
    requires Inv(s) && Next(s, Wait).Fine?
    ensures var r, t := Next(s, Wait).s, s.k.current;
      && r.ticket == s.ticket[t := s.clock] && r.clock == s.clock + 1
      && exists i: nat :: i <= |s.q| && r.q == s.q[..i] + [t] + s.q[i..]
           && (forall j :: 0 <= j < i ==> Get(s.k.th, s.q[j]).base >= Get(s.k.th, t).base)
           && (forall j :: i <= j < |s.q| ==> Get(s.k.th, s.q[j]).base < Get(s.k.th, t).base)
  {
    hide KI.Inv, BlockCurrent;
    var q, t := s.q, s.k.current;
    var i := Scan(q, WaitAfter(s.k.th, t));
    forall j | i <= j < |q| ensures Get(s.k.th, q[j]).base < Get(s.k.th, t).base {
      assert j > i ==> Before(s, q[i], q[j]);
    }
    assert Next(s, Wait).s.q == q[..i] + [t] + q[i..];
  }

  /** Inserting behind everyone of at least the same priority keeps the order of service. */
  lemma WaitServed(s: Sys, r: Sys, t: Tid)
    requires Served(s) && t !in Elems(s.q)
    requires r.q == InsertAfter(s.q, t, WaitAfter(s.k.th, t)) && r.ticket == s.ticket[t := s.clock]
    requires forall u :: Get(r.k.th, u).base == Get(s.k.th, u).base
    requires forall u :: u in Elems(s.q) ==> Ticket(s, u) < s.clock
    ensures Served(r)
  {
    hide InsertAfter, Elems;
    var q, k := s.q, Scan(s.q, WaitAfter(s.k.th, t));
    forall i | 0 <= i < |q| ensures q[i] != t && Ticket(s, q[i]) < s.clock { AtElems(q, i); }
    forall i | 0 <= i < |q| ensures if i < k then Before(r, q[i], t) else Before(r, t, q[i]) {
      assert i > k ==> Before(s, q[k], q[i]);
    }
    forall i, j | 0 <= i < j < |q| ensures Before(r, q[i], q[j]) { assert Before(s, q[i], q[j]); }
    hide Before;
    SpliceServed(r, q, t, WaitAfter(s.k.th, t));
  }

  lemma SpliceServed(r: Sys, q: seq<Tid>, t: Tid, p: Tid -> bool)
    requires forall i, j :: 0 <= i < j < |q| ==> Before(r, q[i], q[j])
    requires forall i :: 0 <= i < |q| ==> if i < Scan(q, p) then Before(r, q[i], t) else Before(r, t, q[i])
    requires r.q == InsertAfter(q, t, p)
    ensures Served(r)
  {
    hide Before, InsertAfter;
    forall i, j | 0 <= i < j < |r.q| ensures Before(r, r.q[i], r.q[j]) {
      InsertedAt(q, t, p, i);
      InsertedAt(q, t, p, j);
    }
  }

  lemma InsertedAt(q: seq<Tid>, t: Tid, p: Tid -> bool, i: nat)
    requires i <= |q|
    ensures var k := Scan(q, p); InsertAfter(q, t, p)[i] == if i < k then q[i] else if i == k then t else q[i - 1]
  {
    hide Scan;
  }

  lemma NotifyOneInv(s: Sys)
    requires Inv(s) && s.q != []
    ensures Inv(Next(s, NotifyOne).s)
  {
    hide KI.Inv, Resume;
    var r, a := Next(s, NotifyOne).s, DoResume(s.q[0]);
    assert Step(s.k, a) == Ok(r.k);
    KI.StepInv(s.k, a);
    KR.BaseKept(s.k, a);
    forall t | t in Elems(r.q) ensures Waits(r, t) {
      assert Waits(s, t);
      StepKeeps(s.k, a, t);
    }
    forall i, j | 0 <= i < j < |r.q| ensures Before(r, r.q[i], r.q[j]) { assert Before(s, s.q[i + 1], s.q[j + 1]); }
  }

  lemma {:induction false} NotifyAllInv(s: Sys)
    requires Inv(s)
    ensures Inv(Next(s, NotifyAll).s)
    decreases |s.q|
  {
    hide Inv, Resume;
    if s.q != [] {
      NotifyOneInv(s);
      NotifyAllInv(Next(s, NotifyOne).s);
    } else {
      assert Next(s, NotifyAll).s == s;
    }
  }

  lemma NextInv(s: Sys, a: Act)
    requires Inv(s) && Can(s, a) && Next(s, a).Fine?
    ensures Inv(Next(s, a).s)
  {
    hide Inv, Resume, BlockCurrent, InsertAfter;
    match a
    case Wait => WaitInv(s);
    case NotifyOne => if s.q != [] { NotifyOneInv(s); }
    case NotifyAll => NotifyAllInv(s);
    case Other(b) => OtherInv(s, b);
  }

  // Runs

  function Run(s: Sys, acts: seq<Act>): Result
    decreases |acts|
  {
    if acts == [] then Fine(s) else
    match Next(s, acts[0])
    case Fine(r) => Run(r, acts[1..])
    case Stop => Stop
  }

  ghost predicate Possible(s: Sys, acts: seq<Act>)
    decreases |acts|
  {
    acts != [] ==> Can(s, acts[0]) && (Next(s, acts[0]).Fine? ==> Possible(Next(s, acts[0]).s, acts[1..]))
  }

  lemma {:induction false} RunInv(s: Sys, acts: seq<Act>)
    requires Inv(s) && Possible(s, acts) && Run(s, acts).Fine?
    ensures Inv(Run(s, acts).s)
    decreases |acts|
  {
    hide Inv, Can, Next;
    if acts == [] {
    } else {
      NextInv(s, acts[0]);
      RunInv(Next(s, acts[0]).s, acts[1..]);
    }
  }

  /** In every run: each waiter is blocked, and the one `notify_one` takes is of the highest base
      priority and has waited longest among those; it becomes ready and the others stay blocked. */
  lemma NotifyOneServesMostUrgent(k: State, acts: seq<Act>)
    requires KI.Init(k) && Possible(Sys(k, [], map[], 0), acts) && Run(Sys(k, [], map[], 0), acts).Fine?
    ensures var s := Run(Sys(k, [], map[], 0), acts).s;
      && (forall t :: t in Elems(s.q) ==> Get(s.k.th, t).state == Blocked)
      && (s.q != [] ==>
            && (forall t :: t in Elems(s.q[1..]) ==> Before(s, s.q[0], t))
            && Get(Next(s, NotifyOne).s.k.th, s.q[0]).state == Ready
            && forall t :: t in Elems(s.q[1..]) ==> Get(Next(s, NotifyOne).s.k.th, t).state == Blocked)
  {
    var s0 := Sys(k, [], map[], 0);
    KI.InitInv(k);
    RunInv(s0, acts);
    var s := Run(s0, acts).s;
    hide KI.Inv, Run, Possible, Resume, NoDup;
    if s.q != [] {
      forall t | t in Elems(s.q[1..]) ensures Before(s, s.q[0], t) { var i := ElemsAt(s.q[1..], t); }
      NotifyOneInv(s);
      assert Waits(s, s.q[0]);
      Awakened(s.k, s.q[0]);
      var r := Next(s, NotifyOne).s;
      forall t | t in Elems(r.q) ensures Get(r.k.th, t).state == Blocked { assert Waits(r, t); }
    }
  }

  lemma Awakened(k: State, t: Tid)
    requires KI.Inv(k) && Get(k.th, t).state == Blocked
    ensures Get(Resume(k, t).th, t).state == Ready
  {
    hide ToReady, LocksCeiling, ActiveOf, KI.Inv;
    IsBlocked(k, t);
    Timers.ToReadyKeeps(k.(sleep := Awake(k.sleep, Thr(t)), blocked := Without(k.blocked, t)), t);
  }

  /** Resuming somebody else puts no waiting thread back to sleep. */
  lemma ResumeOther(k: State, u: Tid, t: Tid)
    requires u != t
    ensures Get(Resume(k, u).th, t).state == Get(k.th, t).state
  {
    hide ToReady, LocksCeiling, ActiveOf;
    Timers.ToReadyKeeps(k.(sleep := Awake(k.sleep, Thr(u)), blocked := Without(k.blocked, u)), u);
    Timers.ToReadyKeeps(k.(suspended := Without(k.suspended, u)), u);
    Timers.ToReadyKeeps(k, u);
  }

  lemma {:induction false} ResumeAllOther(k: State, q: seq<Tid>, t: Tid)
    requires t !in Elems(q)
    ensures Get(ResumeAll(k, q).th, t).state == Get(k.th, t).state
    decreases |q|
  {
    hide Resume;
    if q == [] {
    } else {
      ResumeOther(k, q[0], t);
      ResumeAllOther(Resume(k, q[0]), q[1..], t);
    }
  }

  // The order in which notify_all serves

  ghost predicate Precedes(q: seq<Tid>, u: Tid, t: Tid) { exists a, b :: 0 <= a < b < |q| && q[a] == u && q[b] == t }

  lemma InsertKeepsOrder(q: seq<Tid>, x: Tid, p: Tid -> bool, u: Tid, t: Tid)
    requires Precedes(q, u, t)
    ensures Precedes(InsertAfter(q, x, p), u, t)
  {
    hide InsertAfter;
    var r, k := InsertAfter(q, x, p), Scan(q, p);
    var a, b :| 0 <= a < b < |q| && q[a] == u && q[b] == t;
    var a', b' := if a < k then a else a + 1, if b < k then b else b + 1;
    InsertedAt(q, x, p, a');
    InsertedAt(q, x, p, b');
    assert r[a'] == u && r[b'] == t;
  }

  /** A lock-free thread goes behind every ready thread of at least its priority. */
  lemma InsertsBehind(th: Threads, q: seq<Tid>, t: Tid, u: Tid)
    requires KI.ReadyOrdered(th, q) && u in Elems(q) && !Holds(Get(th, t)) && ActiveOf(th, u) >= ActiveOf(th, t)
    ensures Precedes(InsertAfter(q, t, ReadyAfter(th, t)), u, t)
  {
    hide InsertAfter;
    var p := ReadyAfter(th, t);
    var r, k := InsertAfter(q, t, p), Scan(q, p);
    var a := ElemsAt(q, u);
    if k <= a {
      assert false;
    }
    InsertedAt(q, t, p, a);
    InsertedAt(q, t, p, k);
    assert r[a] == u && r[k] == t;
  }

  /** What resuming a blocked thread does to the ready queue. */
  lemma ResumeReady(k: State, t: Tid)
    requires KI.Inv(k) && Get(k.th, t).state == Blocked
    ensures Resume(k, t).ready == InsertAfter(k.ready, t, ReadyAfter(k.th, t)) && KI.OnlyStates(k.th, Resume(k, t).th)
  {
    hide InsertAfter, ReadyAfter, LocksCeiling, ActiveOf, KI.Inv;
    IsBlocked(k, t);
    KI.MakeReadyInv(k, t);
    IsIdle(k, t);
  }

  lemma IsIdle(k: State, t: Tid)
    requires KI.Inv(k) && Get(k.th, t).state == Blocked
    ensures t != IDLE
  {
  }

  lemma {:induction false} ServedKeeps(s: Sys, u: Tid, t: Tid)
    requires Inv(s) && Precedes(s.k.ready, u, t)
    ensures Precedes(ResumeAll(s.k, s.q).ready, u, t)
    decreases |s.q|
  {
    hide Resume, KI.Inv, Precedes;
    if s.q == [] {
    } else {
      assert Waits(s, s.q[0]);
      ResumeReady(s.k, s.q[0]);
      InsertKeepsOrder(s.k.ready, s.q[0], ReadyAfter(s.k.th, s.q[0]), u, t);
      NotifyOneInv(s);
      ServedKeeps(Next(s, NotifyOne).s, u, t);
    }
  }

  /** Waiter `j` is served behind a ready thread of at least its priority. */
  lemma {:induction false} ServedBehind(s: Sys, u: Tid, j: nat)
    requires Inv(s) && j < |s.q| && u in Elems(s.k.ready)
    requires !Holds(Get(s.k.th, s.q[j])) && ActiveOf(s.k.th, u) >= ActiveOf(s.k.th, s.q[j])
    ensures Precedes(ResumeAll(s.k, s.q).ready, u, s.q[j])
    decreases |s.q|
  {
    hide Resume, KI.Inv, Precedes, NoDup, InsertAfter, ReadyAfter;
    var t, s1 := s.q[0], Next(s, NotifyOne).s;
    assert Waits(s, t);
    ResumeReady(s.k, t);
    NotifyOneInv(s);
    if j == 0 {
      assert KI.ReadyOrdered(s.k.th, s.k.ready) by { ReadyIsOrdered(s.k); }
      InsertsBehind(s.k.th, s.k.ready, t, u);
      ServedKeeps(s1, u, t);
    } else {
      InsertElems(s.k.ready, t, ReadyAfter(s.k.th, t));
      assert Get(s1.k.th, s.q[j]) == Get(s.k.th, s.q[j]).(state := Get(s1.k.th, s.q[j]).state);
      assert Get(s1.k.th, u) == Get(s.k.th, u).(state := Get(s1.k.th, u).state);
      ServedBehind(s1, u, j - 1);
    }
  }

  lemma ReadyIsOrdered(k: State)
    requires KI.Inv(k)
    ensures KI.ReadyOrdered(k.th, k.ready)
  {
  }

  /** After `notify_all` the lock-free waiters stand in the ready queue in the order of service. */
  lemma {:induction false} NotifyAllInOrder(s: Sys, i: nat, j: nat)
    requires Inv(s) && i < j < |s.q| && !Holds(Get(s.k.th, s.q[j]))
    ensures Precedes(Next(s, NotifyAll).s.k.ready, s.q[i], s.q[j])
    decreases |s.q|
  {
    hide Resume, KI.Inv, Precedes, NoDup, InsertAfter, ReadyAfter;
    var t, s1 := s.q[0], Next(s, NotifyOne).s;
    assert Waits(s, t);
    ResumeReady(s.k, t);
    NotifyOneInv(s);
    assert Get(s1.k.th, s.q[j]) == Get(s.k.th, s.q[j]).(state := Get(s1.k.th, s.q[j]).state);
    if i == 0 {
      assert Get(s1.k.th, t) == Get(s.k.th, t).(state := Get(s1.k.th, t).state);
      assert Before(s, t, s.q[j]);
      InsertElems(s.k.ready, t, ReadyAfter(s.k.th, t));
      LockFreeAtBase(s.k, s.q[j]);
      ServedBehind(s1, t, j - 1);
    } else {
      NotifyAllInOrder(s1, i - 1, j - 1);
    }
  }

  lemma LockFreeAtBase(k: State, t: Tid)
    requires KI.Inv(k) && !Holds(Get(k.th, t))
    ensures ActiveOf(k.th, t) == Get(k.th, t).base
  {
    assert t in k.th ==> KI.Exact(k.th[t]);
  }

  /** `notify_all` makes every waiter ready and touches nobody else. */
  lemma {:induction false} NotifyAllWakesEveryone(s: Sys)
    requires Inv(s)
    ensures var r := Next(s, NotifyAll).s;
      && r.q == [] && (forall t :: t in Elems(s.q) ==> Get(r.k.th, t).state == Ready)
      && (forall t :: t !in Elems(s.q) ==> Get(r.k.th, t).state == Get(s.k.th, t).state)
    decreases |s.q|
  {
    hide Resume, KI.Inv;
    var r := Next(s, NotifyAll).s;
    forall t | t !in Elems(s.q) ensures Get(r.k.th, t).state == Get(s.k.th, t).state { ResumeAllOther(s.k, s.q, t); }
    if s.q == [] {
    } else {
      var t, s1 := s.q[0], Next(s, NotifyOne).s;
      NotifyOneInv(s);
      assert Waits(s, t);
      Awakened(s.k, t);
      ResumeAllOther(s1.k, s1.q, t);
      NotifyAllWakesEveryone(s1);
    }
  }

  // The queue object

  lemma WaitAdds(s: Sys)
    requires Inv(s) && s.k.current != IDLE
    ensures BlockCurrent(s.k, None).Ok? && Inv(Next(s, Wait).s)
      && Elems(Next(s, Wait).s.q) == Elems(s.q) + {s.k.current}
  {
    WaitInv(s);
    InsertElems(s.q, s.k.current, WaitAfter(s.k.th, s.k.current));
  }

  lemma FirstServed(s: Sys)
    requires Inv(s) && s.q != []
    ensures forall t :: t in Elems(s.q[1..]) ==> Before(s, s.q[0], t)
    ensures s.q[0] in s.k.th && Get(Resume(s.k, s.q[0]).th, s.q[0]).state == Ready
  {
    hide KI.Inv, Resume;
    forall t | t in Elems(s.q[1..]) ensures Before(s, s.q[0], t) { var i := ElemsAt(s.q[1..], t); }
    assert Waits(s, s.q[0]);
    IsBlocked(s.k, s.q[0]);
    Awakened(s.k, s.q[0]);
  }

  lemma AllBlocked(s: Sys)
    requires Inv(s)
    ensures forall t :: t in Elems(s.q) ==> Get(s.k.th, t).state == Blocked
  {
    hide KI.Inv;
    forall t | t in Elems(s.q) ensures Get(s.k.th, t).state == Blocked { assert Waits(s, t); }
  }

  /** The queue object beside the scheduler object that it blocks and resumes threads in. */
  class Queue {
    const sched: RS.Scheduler
    var waiters: seq<Tid>
    ghost var ticket: map<Tid, nat>
    ghost var clock: nat

    ghost function View(): Sys
      reads this, sched, sched.ready, sched.blocked, sched.suspended
    {
      Sys(sched.View(), waiters, ticket, clock)
    }

    /** The waiters are blocked threads in the order of service, and the scheduler is in order. */
    ghost predicate Valid()
      reads this, sched, sched.ready, sched.blocked, sched.suspended, sched.nodes
      reads sched.ready.items, sched.blocked.items, sched.suspended.items
    {
      sched.Valid() && Inv(View())
    }

    constructor (sched: RS.Scheduler)
      requires sched.Valid()
      ensures Valid() && waiters == [] && this.sched == sched
    {
      this.sched := sched;
      waiters, ticket, clock := [], map[], 0;
    }

    /** The running thread becomes a blocked waiter behind everyone of at least its priority; only the idle
        thread is refused. */
    method WaitCurrentThread() returns (fault: Option<Fault>)
      requires Valid()
      modifies this, sched, sched.ready, sched.blocked, sched.nodes
      ensures fault == if old(sched.current) == IDLE then Some(IdleThread) else None
      ensures fault == None ==> Valid() && Elems(waiters) == old(Elems(waiters)) + {old(sched.current)}
      ensures fault == None ==> clock == old(clock) + 1 && Ticket(View(), old(sched.current)) == old(clock)
      ensures fault != None ==> waiters == old(waiters)
    {
      hide Inv, RS.Scheduler.Listed, KI.Inv, BlockCurrent, InsertAfter, WaitAfter, Elems;
      var t, after := sched.current, WaitAfter(sched.th, sched.current);
      if t != IDLE { WaitAdds(View()); }
      fault := sched.BlockCurrentThread(None);
      if fault == None {
        waiters := InsertInOrder(waiters, t, after);
        ticket, clock := ticket[t := clock], clock + 1;
      }
    }

    method Serve() returns (ok: bool)
      requires Valid() && waiters != []
      modifies this, sched, sched.ready, sched.blocked, sched.suspended, sched.nodes
      ensures ok && Valid() && View() == Next(old(View()), Act.NotifyOne).s
    {
      hide Inv, RS.Scheduler.Listed, KI.Inv, Resume;
      FirstServed(View());
      NotifyOneInv(View());
      var t := waiters[0];
      waiters := waiters[1..];
      ok := sched.ResumeThread(t);
    }

    /** Resumes the waiter that is served first, if there is one. The others go on waiting. */
    method NotifyOne() returns (ok: bool)
      requires Valid()
      modifies this, sched, sched.ready, sched.blocked, sched.suspended, sched.nodes
      ensures ok && Valid()
      ensures old(waiters) == [] ==> View() == old(View())
      ensures old(waiters) != [] ==>
        && waiters == old(waiters)[1..] && Get(sched.th, old(waiters)[0]).state == Ready
        && (forall t :: t in Elems(waiters) ==>
            Before(old(View()), old(waiters)[0], t) && Get(sched.th, t).state == Blocked)
    {
      hide Inv, RS.Scheduler.Listed, KI.Inv, Resume, Elems, Before;
      ok := true;
      if waiters != [] {
        FirstServed(View());
        ok := Serve();
        AllBlocked(View());
      }
    }

    /** Every waiter becomes ready and nobody else changes state. */
    method NotifyAll() returns (ok: bool)
      requires Valid()
      modifies this, sched, sched.ready, sched.blocked, sched.suspended, sched.nodes
      ensures ok && Valid() && waiters == []
      ensures forall t ::
          Get(sched.th, t).state == if t in old(Elems(waiters)) then Ready else old(Get(sched.th, t).state)
      ensures forall i, j :: 0 <= i < j < |old(waiters)| && !Holds(old(Get(sched.th, waiters[j]))) ==>
        Precedes(RS.Ids(sched.ready.items), old(waiters)[i], old(waiters)[j])
    {
      hide Inv, RS.Scheduler.Listed, KI.Inv, Resume, Elems, Precedes, Holds;
      ghost var s := View();
      NotifyAllWakesEveryone(s);
      forall i, j | 0 <= i < j < |s.q| && !Holds(Get(s.k.th, s.q[j]))
        ensures Precedes(Next(s, Act.NotifyAll).s.k.ready, s.q[i], s.q[j])
      {
        NotifyAllInOrder(s, i, j);
      }
      ok := true;
      while ok && waiters != []
        invariant ok && Valid() && ResumeAll(sched.View(), waiters) == ResumeAll(s.k, s.q)
        decreases |waiters|
      {
        ok := Serve();
      }
    }
  }
}
