/** What every action of the kernel keeps: threads are where their state says, queues are ordered,
    the alarm is never late, and the cached lock priorities are exact. */
module KernelInvariants {
  import opened Wrappers
  import opened Lists
  import opened Kernel

  // Where threads are

  /** Every thread outside `out` is in exactly the one place that matches its state. */
  ghost predicate Located(
    th: Threads, ready: set<Tid>, blocked: set<Tid>, suspended: set<Tid>, current: Tid, out: set<Tid>)
  {
    && (forall t :: t in ready <==> t !in out && t != IDLE && Get(th, t).state == Ready)
    && (forall t :: t in blocked <==> t !in out && Get(th, t).state == Blocked)
    && (forall t :: t in suspended <==> t !in out && Get(th, t).state == Suspended)
    && (forall t :: t !in out && Get(th, t).state == Running ==> t == current)
    && Get(th, current).state == Running
    && Get(th, IDLE).state in {Ready, Running}
  }

  ghost predicate Placed(s: State, out: set<Tid>) {
    Located(s.th, Elems(s.ready), Elems(s.blocked), Elems(s.suspended), s.current, out)
  }

  ghost predicate Single(s: State) { NoDup(s.ready) && NoDup(s.blocked) && NoDup(s.suspended) }

  // Queue order

  /** Ready order: by active priority, and lock holders first within a level. */
  function Rank(th: Threads, t: Tid): int {
    2 * ActiveOf(th, t) + if Holds(Get(th, t)) then 1 else 0
  }

  ghost predicate ReadyOrdered(th: Threads, q: seq<Tid>) {
    forall i, j :: 0 <= i < j < |q| ==> Rank(th, q[i]) >= Rank(th, q[j])
  }

  ghost predicate BlockedOrdered(th: Threads, q: seq<Tid>) {
    forall i, j :: 0 <= i < j < |q| ==> LockPrioOf(th, q[i]) >= LockPrioOf(th, q[j])
  }

  ghost predicate Ordered(s: State) { ReadyOrdered(s.th, s.ready) && BlockedOrdered(s.th, s.blocked) }

  // The sleep queue

  ghost predicate Ascending(q: seq<Sleeper>) {
    forall i, j :: 0 <= i < j < |q| ==> q[i].at <= q[j].at
  }

  ghost predicate Distinct(q: seq<Sleeper>) {
    forall i, j :: 0 <= i < j < |q| ==> q[i].who != q[j].who
  }

  /** The sleep queue is in deadline order and its threads are among the blocked ones. */
  ghost predicate Sleeping(q: seq<Sleeper>, blocked: set<Tid>) {
    && Ascending(q) && Distinct(q)
    && forall e :: e in Elems(q) && e.who.Thr? ==> e.who.t in blocked
  }

  ghost predicate NeverLate(q: seq<Sleeper>, alarm: Option<nat>) {
    q != [] ==> alarm.Some? && alarm.value <= q[0].at
  }

  // Lock priorities

  /** The section priority that a stack of live sections amounts to. */
  function SectionPrio(base: Prio, frames: seq<Frame>): Prio {
    if frames == [] then NONE
    else Max(SectionPrio(base, frames[..|frames| - 1]), Max(frames[|frames| - 1].ceiling, base))
  }

  ghost predicate FramesExact(base: Prio, frames: seq<Frame>) {
    forall i :: 0 <= i < |frames| ==> frames[i].ceiling >= MIN && frames[i].saved == SectionPrio(base, frames[..i])
  }

  function CeilingKey(): Lock -> int { (l: Lock) => l.ceiling }

  ghost predicate LocksExact(base: Prio, locks: seq<Lock>) {
    && NoDup(locks) && Desc(locks, CeilingKey())
    && forall l :: l in Elems(locks) ==> l.ceiling >= base
  }

  ghost predicate Exact(x: Thread) {
    && x.base >= MIN
    && x.section == SectionPrio(x.base, x.frames) && FramesExact(x.base, x.frames)
    && x.owned == (if x.locks == [] then NONE else x.locks[0].ceiling) && LocksExact(x.base, x.locks)
    && x.threshold == Level(LockPrio(x))
  }

  predicate Owns(owner: map<Lock, Tid>, l: Lock, t: Tid) { l in owner && owner[l] == t }

  ghost predicate Owners(s: State) {
    forall l, t :: Owns(s.owner, l, t) <==> l in Elems(Get(s.th, t).locks)
  }

  ghost predicate AllExact(th: Threads) { forall t :: t in th ==> Exact(th[t]) }

  ghost predicate Inv(s: State) {
    && Placed(s, {}) && Single(s) && Ordered(s)
    && Sleeping(s.sleep, Elems(s.blocked)) && NeverLate(s.sleep, s.alarm)
    && AllExact(s.th) && Owners(s)
  }

  // Moves of one thread

  /** Only the fields outside the priorities of queued threads changed. */
  ghost predicate SamePrios(th: Threads, th': Threads, q: seq<Tid>) {
    forall t :: t in Elems(q) ==> Rank(th, t) == Rank(th', t) && LockPrioOf(th, t) == LockPrioOf(th', t)
  }

  lemma OrderFrame(th: Threads, th': Threads, q: seq<Tid>)
    requires SamePrios(th, th', q)
    ensures ReadyOrdered(th, q) ==> ReadyOrdered(th', q)
    ensures BlockedOrdered(th, q) ==> BlockedOrdered(th', q)
  {
    forall i | 0 <= i < |q| ensures Rank(th, q[i]) == Rank(th', q[i]) && LockPrioOf(th, q[i]) == LockPrioOf(th', q[i]) {
      AtElems(q, i);
    }
  }

  lemma InsertReady(th: Threads, q: seq<Tid>, t: Tid)
    requires ReadyOrdered(th, q)
    ensures ReadyOrdered(th, InsertAfter(q, t, ReadyAfter(th, t)))
  {
    InsertDesc(q, t, ReadyAfter(th, t), u => Rank(th, u));
  }

  lemma InsertBlocked(th: Threads, q: seq<Tid>, t: Tid)
    requires BlockedOrdered(th, q)
    ensures BlockedOrdered(th, InsertAfter(q, t, BlockedAfter(th, t)))
  {
    InsertDesc(q, t, BlockedAfter(th, t), u => LockPrioOf(th, u));
  }

  lemma SetStateSamePrios(s: State, t: Tid, x: ExecState, q: seq<Tid>)
    ensures SamePrios(s.th, SetState(s, t, x).th, q)
  {
  }

  lemma SetStateOrdered(s: State, t: Tid, x: ExecState)
    requires Ordered(s)
    ensures Ordered(SetState(s, t, x))
  {
    SetStateSamePrios(s, t, x, s.ready);
    SetStateSamePrios(s, t, x, s.blocked);
    OrderFrame(s.th, SetState(s, t, x).th, s.ready);
    OrderFrame(s.th, SetState(s, t, x).th, s.blocked);
  }

  /** A thread outside the queues takes the place that its new state `x` names. */
  lemma Locate(th: Threads, R: set<Tid>, B: set<Tid>, S: set<Tid>, c: Tid, t: Tid, x: ExecState)
    requires Located(th, R, B, S, c, {t}) && t in th && t != c
    requires x in {Ready, Blocked, Suspended} && (t == IDLE ==> x == Ready)
    ensures Located(th[t := th[t].(state := x)],
                    if x == Ready && t != IDLE then R + {t} else R,
                    if x == Blocked then B + {t} else B,
                    if x == Suspended then S + {t} else S, c, {})
  {
    var th' := th[t := th[t].(state := x)];
    assert forall u :: Get(th', u) == if u == t then th[t].(state := x) else Get(th, u);
  }

  lemma ToReadyPlaced(s: State, t: Tid)
    requires Placed(s, {t}) && t in s.th && t != s.current
    ensures Placed(ToReady(s, t), {})
  {
    Locate(s.th, Elems(s.ready), Elems(s.blocked), Elems(s.suspended), s.current, t, Ready);
    InsertElems(s.ready, t, ReadyAfter(s.th, t));
  }

  lemma ToReadyOrdered(s: State, t: Tid)
    requires Single(s) && Ordered(s) && t !in Elems(s.ready)
    ensures Single(ToReady(s, t)) && Ordered(ToReady(s, t))
  {
    var s1 := s.(ready := InsertAfter(s.ready, t, ReadyAfter(s.th, t)));
    InsertElems(s.ready, t, ReadyAfter(s.th, t));
    InsertReady(s.th, s.ready, t);
    SetStateOrdered(s, t, Ready);
    SetStateOrdered(s1, t, Ready);
  }

  lemma ToBlockedPlaced(s: State, t: Tid)
    requires Placed(s, {t}) && t in s.th && t != s.current && t != IDLE
    ensures Placed(ToBlocked(s, t), {})
  {
    Locate(s.th, Elems(s.ready), Elems(s.blocked), Elems(s.suspended), s.current, t, Blocked);
    InsertElems(s.blocked, t, BlockedAfter(s.th, t));
  }

  lemma ToBlockedOrdered(s: State, t: Tid)
    requires Single(s) && Ordered(s) && t !in Elems(s.blocked)
    ensures Single(ToBlocked(s, t)) && Ordered(ToBlocked(s, t))
  {
    var s1 := s.(blocked := InsertAfter(s.blocked, t, BlockedAfter(s.th, t)));
    InsertElems(s.blocked, t, BlockedAfter(s.th, t));
    InsertBlocked(s.th, s.blocked, t);
    SetStateOrdered(s1, t, Blocked);
  }

  lemma ToSuspendedPlaced(s: State, t: Tid)
    requires Placed(s, {t}) && t in s.th && t != s.current && t != IDLE
    ensures Placed(ToSuspended(s, t), {})
  {
    Locate(s.th, Elems(s.ready), Elems(s.blocked), Elems(s.suspended), s.current, t, Suspended);
    ElemsConcat(s.suspended, [t]);
  }

  lemma ToSuspendedOrdered(s: State, t: Tid)
    requires Single(s) && Ordered(s) && t !in Elems(s.suspended)
    ensures Single(ToSuspended(s, t)) && Ordered(ToSuspended(s, t))
  {
    ElemsConcat(s.suspended, [t]);
    SetStateOrdered(s, t, Suspended);
  }

  // Giving up the processor

  lemma LocateSwitch(th: Threads, R: set<Tid>, B: set<Tid>, S: set<Tid>, c: Tid, next: Tid)
    requires Located(th, R, B, S, c, {}) && next != c && Get(th, next).state == Ready
    ensures Located(th[next := Get(th, next).(state := Running)][c := Get(th, c).(state := Ready)],
                    R - {next}, B, S, next, {c})
  {
    var th' := th[next := Get(th, next).(state := Running)][c := Get(th, c).(state := Ready)];
    assert forall u :: Get(th', u) == if u == next then Get(th, next).(state := Running)
                                      else if u == c then Get(th, c).(state := Ready) else Get(th, u);
  }

  /** Threads keep everything but their execution state. */
  ghost predicate OnlyStates(th: Threads, th': Threads) {
    forall t :: (t in th <==> t in th') && Get(th', t) == Get(th, t).(state := Get(th', t).state)
  }

  /** The part of the state that scheduling leaves alone. */
  ghost predicate Scheduled(s: State, r: State) {
    OnlyStates(s.th, r.th) && r.owner == s.owner
  }

  lemma SetStateScheduled(s: State, t: Tid, x: ExecState)
    ensures Scheduled(s, SetState(s, t, x))
  {
  }

  lemma ScheduledTrans(a: State, b: State, c: State)
    requires Scheduled(a, b) && Scheduled(b, c)
    ensures Scheduled(a, c)
  {
  }

  lemma OnlyStatesOrdered(s: State, r: State)
    requires Ordered(s) && OnlyStates(s.th, r.th) && r.ready == s.ready && r.blocked == s.blocked
    ensures Ordered(r)
  {
    assert SamePrios(s.th, r.th, s.ready) && SamePrios(s.th, r.th, s.blocked);
    OrderFrame(s.th, r.th, s.ready);
    OrderFrame(s.th, r.th, s.blocked);
  }

  /** Switching to `next`, which is the head of the ready queue or stays outside it. */
  lemma SwitchInv(s: State, s1: State, next: Tid)
    requires Placed(s, {}) && Single(s) && Ordered(s)
    requires (next == IDLE && s1 == s) || (s.ready != [] && next == s.ready[0] && s1 == s.(ready := s.ready[1..]))
    requires next != s.current
    ensures var r := Switch(s1, next);
            && Placed(r, {s.current}) && Single(r) && Ordered(r) && Scheduled(s, r)
            && r == s.(th := r.th, ready := s1.ready, current := next)
            && s.current in r.th && s.current !in Elems(r.ready) + Elems(r.blocked) + Elems(r.suspended)
  {
    var r := Switch(s1, next);
    assert Elems(s1.ready) == Elems(s.ready) - {next} && NoDup(s1.ready);
    LocateSwitch(s.th, Elems(s.ready), Elems(s.blocked), Elems(s.suspended), s.current, next);
    SwitchOrdered(s, s1, next);
  }

  lemma SwitchOrdered(s: State, s1: State, next: Tid)
    requires Ordered(s)
    requires s1 == s || (s.ready != [] && s1 == s.(ready := s.ready[1..]))
    ensures Ordered(Switch(s1, next)) && Scheduled(s, Switch(s1, next))
  {
    var r := Switch(s1, next);
    var s2 := SetState(s1, next, Running);
    SetStateScheduled(s1, next, Running);
    SetStateScheduled(s2, s1.current, Ready);
    ScheduledTrans(s1, s2, r);
    hide OnlyStates;
    OnlyStatesOrdered(s1, r);
  }

  lemma LeaveCpuInv(s: State)
    requires Placed(s, {}) && Single(s) && Ordered(s) && s.current != IDLE
    ensures var r := LeaveCpu(s);
            && Placed(r, {s.current}) && Single(r) && Ordered(r) && Scheduled(s, r) && r.current != s.current
            && r == s.(th := r.th, ready := r.ready, current := r.current)
            && s.current in r.th && s.current !in Elems(r.ready) + Elems(r.blocked) + Elems(r.suspended)
  {
    var (s1, next) := PopAbove(s, Max(LocksCeiling(s), MIN), IDLE);
    assert s1 != s ==> s.ready[0] in Elems(s.ready);
    SwitchInv(s, s1, next);
  }

  lemma ExactAnyState(x: Thread, y: ExecState)
    requires Exact(x)
    ensures Exact(x.(state := y))
  {
  }

  lemma ScheduledExact(s: State, r: State)
    requires AllExact(s.th) && Owners(s) && Scheduled(s, r)
    ensures AllExact(r.th) && Owners(r)
  {
    forall t | t in r.th ensures Exact(r.th[t]) {
      assert Get(r.th, t) == Get(s.th, t).(state := r.th[t].state);
      ExactAnyState(s.th[t], r.th[t].state);
    }
  }

  // The sleep queue

  lemma SleepInsertAt(q: seq<Sleeper>, e: Sleeper)
    ensures var r, k := InsertAfter(q, e, SleepAfter(e.at)), Scan(q, SleepAfter(e.at));
            && |r| == |q| + 1
            && (forall i :: 0 <= i < k ==> r[i] == q[i] && q[i].at <= e.at)
            && r[k] == e && (forall i :: k < i < |r| ==> r[i] == q[i - 1]) && (k < |q| ==> q[k].at > e.at)
  {
  }

  lemma SleepInsertOrder(q: seq<Sleeper>, e: Sleeper)
    requires Ascending(q) && Distinct(q) && forall i :: 0 <= i < |q| ==> q[i].who != e.who
    ensures Ascending(InsertAfter(q, e, SleepAfter(e.at))) && Distinct(InsertAfter(q, e, SleepAfter(e.at)))
  {
    SleepInsertAt(q, e);
    hide InsertAfter, Scan, SleepAfter;
  }

  lemma SleepInsert(q: seq<Sleeper>, who: Who, at: nat, blocked: set<Tid>)
    requires Sleeping(q, blocked) && forall e :: e in Elems(q) ==> e.who != who
    requires who.Thr? ==> who.t in blocked
    ensures Sleeping(InsertAfter(q, Sleeper(who, at), SleepAfter(at)), blocked)
  {
    forall i | 0 <= i < |q| ensures q[i].who != who { AtElems(q, i); }
    hide Elems, InsertAfter, Ascending, Distinct;
    InsertElems(q, Sleeper(who, at), SleepAfter(at));
    SleepInsertOrder(q, Sleeper(who, at));
  }

  lemma {:induction false} AwakeMembers(q: seq<Sleeper>, who: Who)
    requires Distinct(q)
    ensures forall e :: e in Elems(Awake(q, who)) <==> e in Elems(q) && e.who != who
  {
    if q == [] {
    } else if q[0].who == who {
      forall e | e in Elems(q[1..]) ensures e.who != who { var i := ElemsAt(q[1..], e); }
    } else {
      AwakeMembers(q[1..], who);
      var r := Awake(q[1..], who);
      assert ([q[0]] + r)[1..] == r;
    }
  }

  lemma {:induction false} AwakeOrder(q: seq<Sleeper>, who: Who)
    requires Distinct(q)
    ensures Distinct(Awake(q, who)) && (Ascending(q) ==> Ascending(Awake(q, who)))
    ensures Awake(q, who) != [] ==> q != [] && (Awake(q, who)[0] == q[0] || (|q| > 1 && Awake(q, who)[0] == q[1]))
  {
    if q == [] || q[0].who == who {
    } else {
      AwakeOrder(q[1..], who);
      AwakeMembers(q[1..], who);
      var r := Awake(q[1..], who);
      hide Elems;
      forall i | 0 <= i < |r| ensures q[0].who != r[i].who && (Ascending(q) ==> q[0].at <= r[i].at) {
        AtElems(r, i);
        var m := ElemsAt(q[1..], r[i]);
      }
    }
  }

  lemma AwakeElems(q: seq<Sleeper>, who: Who)
    requires Distinct(q)
    ensures forall e :: e in Elems(Awake(q, who)) <==> e in Elems(q) && e.who != who
    ensures Distinct(Awake(q, who))
    ensures Ascending(q) ==> Ascending(Awake(q, who))
    ensures Awake(q, who) != [] ==> q != [] && (Awake(q, who)[0] == q[0] || (|q| > 1 && Awake(q, who)[0] == q[1]))
  {
    hide Elems, Awake, Distinct, Ascending;
    AwakeMembers(q, who);
    AwakeOrder(q, who);
  }

  // Actions

  lemma BlockInv(s: State, deadline: Option<nat>)
    requires Inv(s) && s.current != IDLE
    ensures Inv(BlockCurrent(s, deadline).s)
  {
    hide Located, ReadyOrdered, BlockedOrdered, NoDup, Sleeping, AllExact, Owners, OnlyStates, LeaveCpu, Elems,
        NeverLate;
    var c := s.current;
    var s1 := LeaveCpu(s);
    LeaveCpuInv(s);
    var s2 := match deadline case Some(at) => ToSleep(s1, Thr(c), at) case None => s1;
    var r := ToBlocked(s2, c);
    ToBlockedPlaced(s2, c);
    ToBlockedOrdered(s2, c);
    SetStateScheduled(s2, c, Blocked);
    ScheduledTrans(s, s2, r);
    ScheduledExact(s, r);
    assert Sleeping(r.sleep, Elems(r.blocked)) && NeverLate(r.sleep, r.alarm) by { ToBlockedSleeping(s1, c, deadline); }
  }

  lemma ToBlockedSleeping(s: State, c: Tid, deadline: Option<nat>)
    requires Sleeping(s.sleep, Elems(s.blocked)) && NeverLate(s.sleep, s.alarm) && c !in Elems(s.blocked)
    ensures var s2 := match deadline case Some(at) => ToSleep(s, Thr(c), at) case None => s;
            var r := ToBlocked(s2, c);
            Sleeping(r.sleep, Elems(r.blocked)) && NeverLate(r.sleep, r.alarm)
  {
    InsertElems(s.blocked, c, BlockedAfter(s.th, c));
    if deadline.Some? {
      SleepInsert(s.sleep, Thr(c), deadline.value, Elems(s.blocked) + {c});
    }
  }

  lemma SuspendInv(s: State, t: Tid)
    requires Inv(s) && Suspend(s, t).Ok?
    ensures Inv(Suspend(s, t).s)
  {
    hide ReadyOrdered, BlockedOrdered, NoDup, Sleeping, AllExact, Owners, OnlyStates, LeaveCpu, Elems, Without;
    var r := Suspend(s, t).s;
    var s1 := if Get(s.th, t).state == Running then LeaveCpu(s) else
              if Get(s.th, t).state == Ready then s.(ready := Without(s.ready, t)) else s;
    if Get(s.th, t).state == Suspended {
      return;
    }
    assert t in s.th && (t == s.current <==> Get(s.th, t).state == Running) && t !in Elems(s.suspended);
    hide Located;
    if Get(s.th, t).state == Running {
      LeaveCpuInv(s);
    } else if Get(s.th, t).state == Ready {
      RemoveReady(s, t);
    }
    ToSuspendedPlaced(s1, t);
    ToSuspendedOrdered(s1, t);
    SetStateScheduled(s1, t, Suspended);
    ScheduledTrans(s, s1, r);
    ScheduledExact(s, r);
  }

  lemma LocateTake(th: Threads, R: set<Tid>, B: set<Tid>, S: set<Tid>, c: Tid, t: Tid)
    requires Located(th, R, B, S, c, {}) && t != c
    ensures Located(th, R - {t}, B - {t}, S - {t}, c, {t})
    ensures Get(th, t).state != Ready ==> R - {t} == R
    ensures Get(th, t).state != Blocked ==> B - {t} == B
    ensures Get(th, t).state != Suspended ==> S - {t} == S
  {
  }

  lemma RemoveReady(s: State, t: Tid)
    requires Placed(s, {}) && Single(s) && Ordered(s) && Get(s.th, t).state == Ready && t != s.current
    ensures var r := s.(ready := Without(s.ready, t));
            && Placed(r, {t}) && Single(r) && Ordered(r) && Scheduled(s, r)
            && t !in Elems(r.ready) && t !in Elems(s.suspended)
  {
    hide Without, Elems, NoDup, ReadyOrdered, BlockedOrdered, Located;
    WithoutElems(s.ready, t);
    WithoutOrdered(s.th, s.ready, t);
    LocateTake(s.th, Elems(s.ready), Elems(s.blocked), Elems(s.suspended), s.current, t);
  }

  lemma WithoutOrdered(th: Threads, q: seq<Tid>, t: Tid)
    ensures ReadyOrdered(th, q) ==> ReadyOrdered(th, Without(q, t))
    ensures BlockedOrdered(th, q) ==> BlockedOrdered(th, Without(q, t))
  {
    if ReadyOrdered(th, q) {
      WithoutDesc(q, t, u => Rank(th, u));
    }
    if BlockedOrdered(th, q) {
      WithoutDesc(q, t, u => LockPrioOf(th, u));
    }
  }

  /** A thread taken off the queue that its state names. */
  function Taken(s: State, t: Tid): State {
    match Get(s.th, t).state
    case Blocked => s.(sleep := Awake(s.sleep, Thr(t)), blocked := Without(s.blocked, t))
    case Suspended => s.(suspended := Without(s.suspended, t))
    case _ => s
  }

  lemma TakenInv(s: State, t: Tid)
    requires Inv(s) && Get(s.th, t).state in {Blocked, Suspended, Started} && t != s.current
    ensures var r := Taken(s, t);
            && Placed(r, {t}) && Single(r) && Ordered(r) && t !in Elems(r.ready)
            && Sleeping(r.sleep, Elems(r.blocked)) && NeverLate(r.sleep, r.alarm)
  {
    hide Without, Elems, NoDup, ReadyOrdered, BlockedOrdered, Located, AllExact, Owners, Awake, Sleeping, NeverLate;
    WithoutElems(s.blocked, t);
    WithoutElems(s.suspended, t);
    WithoutOrdered(s.th, s.blocked, t);
    LocateTake(s.th, Elems(s.ready), Elems(s.blocked), Elems(s.suspended), s.current, t);
    AwakeSleeping(s.sleep, Thr(t), s.alarm, Elems(s.blocked));
  }

  lemma NotCurrent(s: State, t: Tid)
    requires Placed(s, {}) && Get(s.th, t).state !in {Running, Created}
    ensures t != s.current && t in s.th
  {
  }

  lemma MakeReadyInv(s: State, t: Tid)
    requires Inv(s)
    ensures Inv(MakeReady(s, t)) && Scheduled(s, MakeReady(s, t)) && MakeReady(s, t).current == s.current
  {
    hide Located, ReadyOrdered, BlockedOrdered, NoDup, Sleeping, AllExact, Owners, OnlyStates, Elems, NeverLate;
    if Get(s.th, t).state in {Blocked, Suspended, Started} {
      NotCurrent(s, t);
      TakenInv(s, t);
      var s1 := Taken(s, t);
      ToReadyPlaced(s1, t);
      ToReadyOrdered(s1, t);
      SetStateScheduled(s1, t, Ready);
      assert Scheduled(s, ToReady(s1, t));
      ScheduledExact(s, ToReady(s1, t));
    } else {
      assert OnlyStates(s.th, s.th) by { OnlyStatesRefl(s.th); }
    }
  }

  lemma OnlyStatesRefl(th: Threads)
    ensures OnlyStates(th, th)
  {
  }

  lemma AwakeSleeping(q: seq<Sleeper>, who: Who, alarm: Option<nat>, blocked: set<Tid>)
    requires Sleeping(q, blocked) && NeverLate(q, alarm)
    ensures Sleeping(Awake(q, who), if who.Thr? then blocked - {who.t} else blocked)
    ensures NeverLate(Awake(q, who), alarm)
  {
    AwakeElems(q, who);
  }

  lemma ResumeInv(s: State, t: Tid)
    requires Inv(s)
    ensures Inv(Resume(s, t))
  {
    hide Located, ReadyOrdered, BlockedOrdered, NoDup, Sleeping, NeverLate, AllExact, Owners, MakeReady, Elems;
    MakeReadyInv(s, t);
    assert Owners(Resume(s, t)) by { OwnersFrame(MakeReady(s, t), Resume(s, t)); }
  }

  lemma OwnersFrame(s: State, r: State)
    requires Owners(s) && r.th == s.th && r.owner == s.owner
    ensures Owners(r)
  {
  }

  lemma StartedInv(s: State, t: Tid)
    requires Inv(s) && Get(s.th, t).state == Created
    ensures Inv(SetState(s, t, Started))
  {
    hide ReadyOrdered, BlockedOrdered, Elems, NoDup, Sleeping, AllExact, Owners, OnlyStates;
    var s1 := SetState(s, t, Started);
    assert Placed(s1, {}) by {
      assert forall u :: Get(s1.th, u) == if u == t && t in s.th then s.th[t].(state := Started) else Get(s.th, u);
    }
    hide Located;
    SetStateOrdered(s, t, Started);
    SetStateScheduled(s, t, Started);
    ScheduledExact(s, s1);
  }

  lemma StartInv(s: State, t: Tid)
    requires Inv(s) && Start(s, t).Ok?
    ensures Inv(Start(s, t).s)
  {
    hide Inv, Resume;
    StartedInv(s, t);
    ResumeInv(SetState(s, t, Started), t);
  }

  // Rescheduling

  lemma {:induction false} AwakeAbsent(q: seq<Sleeper>, who: Who)
    requires forall e :: e in Elems(q) ==> e.who != who
    ensures Awake(q, who) == q
  {
    if q == [] {
    } else {
      AwakeAbsent(q[1..], who);
    }
  }

  lemma SleepTail(s: State)
    requires Sleeping(s.sleep, Elems(s.blocked)) && NeverLate(s.sleep, s.alarm) && s.sleep != []
    ensures Sleeping(s.sleep[1..], Elems(s.blocked)) && NeverLate(s.sleep[1..], s.alarm)
    ensures forall e :: e in Elems(s.sleep[1..]) ==> e.who != s.sleep[0].who && e.at >= s.sleep[0].at
  {
    forall e | e in Elems(s.sleep[1..]) ensures e.who != s.sleep[0].who && e.at >= s.sleep[0].at {
      var i := ElemsAt(s.sleep[1..], e);
    }
  }

  /** Waking the head sleeper is resuming a thread, or asking for one executor poll. */
  lemma WakeInv(s: State)
    requires Inv(s) && s.sleep != []
    ensures var who := s.sleep[0].who;
            var s0 := s.(sleep := s.sleep[1..]);
            && Inv(s0) && Inv(Wake(s0, who)) && Scheduled(s, Wake(s0, who))
            && (who.Thr? ==> Get(s.th, who.t).state == Blocked && Wake(s0, who) == MakeReady(s0, who.t))
            && Wake(s0, who).sleep == s.sleep[1..] && Wake(s0, who).current == s.current
  {
    hide Located, ReadyOrdered, BlockedOrdered, NoDup, AllExact, Owners, OnlyStates;
    var who, s0 := s.sleep[0].who, s.(sleep := s.sleep[1..]);
    SleepTail(s);
    OwnersFrame(s, s0);
    if who.Thr? {
      assert s.sleep[0] in Elems(s.sleep);
      assert Get(s.th, who.t).state == Blocked by { BlockedState(s, who.t); }
      AwakeAbsent(s0.sleep, who);
      MakeReadyInv(s0, who.t);
    } else {
      OnlyStatesRefl(s.th);
      OwnersFrame(s, Wake(s0, who));
    }
  }

  lemma BlockedState(s: State, t: Tid)
    requires Placed(s, {}) && t in Elems(s.blocked)
    ensures Get(s.th, t).state == Blocked
  {
  }

  lemma {:induction false} WakeExpiredInv(s: State, now: nat)
    requires Inv(s)
    ensures var r := WakeExpired(s, now); Inv(r) && Scheduled(s, r) && r.current == s.current
    decreases |s.sleep|
  {
    hide Located, ReadyOrdered, BlockedOrdered, NoDup, AllExact, Owners, OnlyStates, Wake, Sleeping;
    if s.sleep == [] || s.sleep[0].at > now {
      OnlyStatesRefl(s.th);
      OwnersFrame(s, s.(alarm := Earliest(s.sleep)));
    } else {
      WakeInv(s);
      var s1 := Wake(s.(sleep := s.sleep[1..]), s.sleep[0].who);
      WakeExpiredInv(s1, now);
      ScheduledTrans(s, s1, WakeExpired(s1, now));
    }
  }

  lemma PreemptInv(s: State, equal: bool)
    requires Inv(s)
    ensures Inv(Preempt(s, equal)) && Scheduled(s, Preempt(s, equal))
  {
    hide Located, ReadyOrdered, BlockedOrdered, NoDup, AllExact, Owners, OnlyStates, Sleeping, NeverLate;
    var p: int := ActiveOf(s.th, s.current);
    var (s1, next) := PopAbove(s, if equal then p - 1 else p, s.current);
    if s.ready != [] {
      HeadReady(s);
    }
    if next != s.current {
      SwitchInv(s, s1, next);
      hide Elems;
      var s2 := Switch(s1, next);
      var r := ToReady(s2, s.current);
      ToReadyPlaced(s2, s.current);
      ToReadyOrdered(s2, s.current);
      SetStateScheduled(s2, s.current, Ready);
      ScheduledTrans(s, s2, r);
      ScheduledExact(s, r);
    } else {
      OnlyStatesRefl(s.th);
    }
  }

  lemma HeadReady(s: State)
    requires Placed(s, {}) && s.ready != []
    ensures s.ready[0] != s.current && s.ready[0] in Elems(s.ready)
  {
    assert s.ready[0] in Elems(s.ready);
  }

  lemma FlagsInv(s: State, equal: bool, higher: bool)
    requires Inv(s)
    ensures Inv(s.(toEqual := equal, toHigher := higher))
  {
    hide Located, ReadyOrdered, BlockedOrdered, NoDup, AllExact, Sleeping, NeverLate, Elems;
  }

  lemma ExecInv(s: State, now: nat)
    requires Inv(s)
    ensures Inv(Exec(s, now)) && Scheduled(s, Exec(s, now))
  {
    hide Inv, WakeExpired, Preempt, OnlyStates;
    FlagsInv(s, false, false);
    var s0 := s.(toEqual := false, toHigher := false);
    var s1 := WakeExpired(s0, now);
    WakeExpiredInv(s0, now);
    PreemptInv(s1, s.toEqual);
    OnlyStatesRefl(s.th);
    ScheduledTrans(s, s1, Preempt(s1, s.toEqual));
  }

  lemma IrqSleepInv(s: State, i: nat, at: nat)
    requires Inv(s)
    ensures Inv(ToSleep(s.(sleep := Awake(s.sleep, Irq(i))), Irq(i), at))
  {
    hide Located, ReadyOrdered, BlockedOrdered, NoDup, AllExact, Owners;
    var q := Awake(s.sleep, Irq(i));
    AwakeSleeping(s.sleep, Irq(i), s.alarm, Elems(s.blocked));
    AwakeElems(s.sleep, Irq(i));
    hide Elems, Awake;
    SleepInsert(q, Irq(i), at, Elems(s.blocked));
    hide Sleeping;
    OwnersFrame(s, ToSleep(s.(sleep := q), Irq(i), at));
  }

  lemma IrqResumeInv(s: State, i: nat)
    requires Inv(s)
    ensures Inv(s.(sleep := Awake(s.sleep, Irq(i)), polls := s.polls + {i})) && Inv(s.(polls := {}))
  {
    hide Located, ReadyOrdered, BlockedOrdered, NoDup, AllExact, Owners, Elems, Awake, Sleeping, NeverLate;
    AwakeSleeping(s.sleep, Irq(i), s.alarm, Elems(s.blocked));
    OwnersFrame(s, s.(sleep := Awake(s.sleep, Irq(i)), polls := s.polls + {i}));
    OwnersFrame(s, s.(polls := {}));
  }

  // Locks

  /** Only the lock fields of the running thread change. */
  lemma SetLocksInv(s: State, locks: seq<Lock>, frames: seq<Frame>, section: Prio, owner: map<Lock, Tid>)
    requires Inv(s)
    requires var r := SetLocks(s, locks, frames, section);
             Exact(r.th[s.current]) && Owners(r.(owner := owner))
    ensures Inv(SetLocks(s, locks, frames, section).(owner := owner))
  {
    hide Exact, Owners, Elems, NoDup, Sleeping, NeverLate, Located, ReadyOrdered, BlockedOrdered;
    var r := SetLocks(s, locks, frames, section);
    SetLocksPlaced(s, locks, frames, section);
    OrderFrame(s.th, r.th, s.ready);
    OrderFrame(s.th, r.th, s.blocked);
  }

  /** The current thread is in no queue. */
  lemma SetLocksPlaced(s: State, locks: seq<Lock>, frames: seq<Frame>, section: Prio)
    requires Placed(s, {})
    ensures var r := SetLocks(s, locks, frames, section);
            Placed(r, {}) && SamePrios(s.th, r.th, s.ready) && SamePrios(s.th, r.th, s.blocked)
  {
    hide Elems;
    var r := SetLocks(s, locks, frames, section);
    assert forall u :: u != s.current ==> Get(r.th, u) == Get(s.th, u);
    assert Get(r.th, s.current).state == Get(s.th, s.current).state;
  }

  lemma CondRescheduleInv(s: State)
    requires Inv(s)
    ensures Inv(CondReschedule(s))
  {
    hide Inv;
    FlagsInv(s, s.toEqual, true);
  }

  lemma OwnersAt(s: State, r: State, c: Tid, x: Thread)
    requires Owners(s) && c in s.th && r.th == s.th[c := x]
    requires forall l, t :: t != c ==> (Owns(r.owner, l, t) <==> Owns(s.owner, l, t))
    requires forall l :: Owns(r.owner, l, c) <==> l in Elems(x.locks)
    ensures Owners(r)
  {
    hide Owns, Elems;
    forall l, t ensures Owns(r.owner, l, t) <==> l in Elems(Get(r.th, t).locks) {
      if t != c {
        assert Get(r.th, t) == Get(s.th, t);
      }
    }
  }

  lemma CurrentKnown(s: State)
    requires Inv(s) || Placed(s, {})
    ensures s.current in s.th && Get(s.th, s.current).state == Running && IDLE in s.th
  {
  }

  lemma AcquireExact(x: Thread, l: Lock)
    requires Exact(x) && l !in Elems(x.locks) && Active(x) <= l.ceiling
    ensures var locks := InsertAfter(x.locks, l, LockAfter(l));
            && Elems(locks) == Elems(x.locks) + {l}
            && LocksExact(x.base, locks)
  {
    var p := LockAfter(l);
    InsertElems(x.locks, l, p);
    InsertDesc(x.locks, l, p, CeilingKey());
  }

  lemma AcquireInv(s: State, l: Lock)
    requires Inv(s) && Acquire(s, l).Ok?
    ensures Inv(Acquire(s, l).s)
  {
    hide Located, ReadyOrdered, BlockedOrdered, Sleeping, Elems, NoDup, LocksExact, FramesExact;
    var c, x := s.current, Get(s.th, s.current);
    CurrentKnown(s);
    assert Owns(s.owner, l, c) <==> l in Elems(x.locks);
    AcquireExact(x, l);
    var r := Acquire(s, l).s;
    assert Exact(r.th[c]);
    hide Exact;
    OwnersAt(s, r, c, r.th[c]);
    SetLocksInv(s, r.th[c].locks, x.frames, x.section, r.owner);
  }

  lemma ReleasedInv(s: State, l: Lock)
    requires Inv(s) && Owns(s.owner, l, s.current)
    ensures var x := Get(s.th, s.current);
            Inv(SetLocks(s, Without(x.locks, l), x.frames, x.section).(owner := s.owner - {l}))
  {
    hide Located, ReadyOrdered, BlockedOrdered, Sleeping, Elems, NoDup, LocksExact, FramesExact, Without;
    var c, x := s.current, Get(s.th, s.current);
    CurrentKnown(s);
    assert Owns(s.owner, l, c) <==> l in Elems(x.locks);
    ReleaseExact(x, l);
    var r := SetLocks(s, Without(x.locks, l), x.frames, x.section).(owner := s.owner - {l});
    assert Exact(r.th[c]);
    hide Exact;
    OwnersAt(s, r, c, r.th[c]);
    SetLocksInv(s, r.th[c].locks, x.frames, x.section, r.owner);
  }

  lemma ReleaseInv(s: State, l: Lock)
    requires Inv(s) && Release(s, l).Ok?
    ensures Inv(Release(s, l).s)
  {
    hide Inv, Without, CondReschedule;
    var x := Get(s.th, s.current);
    if l in s.owner {
      ReleasedInv(s, l);
      CondRescheduleInv(SetLocks(s, Without(x.locks, l), x.frames, x.section).(owner := s.owner - {l}));
    }
  }

  lemma ReleaseExact(x: Thread, l: Lock)
    requires Exact(x)
    ensures var locks := Without(x.locks, l); Elems(locks) == Elems(x.locks) - {l} && LocksExact(x.base, locks)
  {
    WithoutElems(x.locks, l);
    WithoutDesc(x.locks, l, CeilingKey());
  }

  lemma SectionInv(s: State, frames: seq<Frame>, section: Prio)
    requires Inv(s)
    requires var x := Get(s.th, s.current);
             section == SectionPrio(x.base, frames) && FramesExact(x.base, frames)
    ensures Inv(SetLocks(s, Get(s.th, s.current).locks, frames, section))
  {
    hide Located, ReadyOrdered, BlockedOrdered, Sleeping, Elems, NoDup, LocksExact, FramesExact;
    var c, x := s.current, Get(s.th, s.current);
    CurrentKnown(s);
    var r := SetLocks(s, x.locks, frames, section);
    assert Exact(r.th[c]);
    hide Exact;
    assert forall l :: Owns(s.owner, l, c) <==> l in Elems(x.locks);
    OwnersAt(s, r, c, r.th[c]);
    SetLocksInv(s, x.locks, frames, section, s.owner);
  }

  lemma EnterInv(s: State, ceiling: Prio)
    requires Inv(s) && ceiling >= MIN
    ensures Inv(EnterSection(s, ceiling))
  {
    var x := Get(s.th, s.current);
    var frames := x.frames + [Frame(ceiling, x.section)];
    CurrentKnown(s);
    assert Exact(x);
    hide Inv, Exact;
    EnterExact(x, ceiling);
    SectionInv(s, frames, Max(x.section, Max(ceiling, x.base)));
  }

  lemma EnterExact(x: Thread, ceiling: Prio)
    requires Exact(x) && ceiling >= MIN
    ensures var frames := x.frames + [Frame(ceiling, x.section)];
            FramesExact(x.base, frames) && SectionPrio(x.base, frames) == Max(x.section, Max(ceiling, x.base))
  {
    var frames := x.frames + [Frame(ceiling, x.section)];
    assert frames[..|frames| - 1] == x.frames;
    forall i | 0 <= i < |frames| ensures frames[i].ceiling >= MIN
        && frames[i].saved == SectionPrio(x.base, frames[..i]) {
      if i < |x.frames| {
        assert frames[..i] == x.frames[..i];
      }
    }
  }

  lemma LeaveExact(x: Thread)
    requires Exact(x) && x.frames != []
    ensures var n := |x.frames| - 1;
            FramesExact(x.base, x.frames[..n]) && SectionPrio(x.base, x.frames[..n]) == x.frames[n].saved
  {
    var n := |x.frames| - 1;
    forall i | 0 <= i < n
      ensures x.frames[..n][i].ceiling >= MIN && x.frames[..n][i].saved == SectionPrio(x.base, x.frames[..n][..i])
    {
      assert x.frames[..n][..i] == x.frames[..i];
    }
  }

  lemma LeftInv(s: State)
    requires Inv(s) && Get(s.th, s.current).frames != []
    ensures var x := Get(s.th, s.current);
            var n := |x.frames| - 1;
            Inv(SetLocks(s, x.locks, x.frames[..n], x.frames[n].saved))
  {
    var x := Get(s.th, s.current);
    var n := |x.frames| - 1;
    CurrentKnown(s);
    assert Exact(x);
    hide Inv, Exact;
    LeaveExact(x);
    SectionInv(s, x.frames[..n], x.frames[n].saved);
  }

  lemma LeaveInv(s: State)
    requires Inv(s) && LeaveSection(s).Ok?
    ensures Inv(LeaveSection(s).s)
  {
    hide Inv;
    var x := Get(s.th, s.current);
    var n := |x.frames| - 1;
    LeftInv(s);
    CondRescheduleInv(SetLocks(s, x.locks, x.frames[..n], x.frames[n].saved));
  }

  /** Every action that does not halt keeps the invariant. */
  lemma StepInv(s: State, a: Action)
    requires Inv(s) && Valid(a) && Step(s, a).Ok?
    ensures Inv(Step(s, a).s)
  {
    hide Inv, Acquire, Release, EnterSection, LeaveSection, Suspend, Resume, Start, Exec, ToSleep, Awake;
    match a
    case DoAcquire(l) => AcquireInv(s, l);
    case DoRelease(l) => ReleaseInv(s, l);
    case DoEnter(c) => EnterInv(s, c);
    case DoLeave => LeaveInv(s);
    case DoBlock(d) => BlockInv(s, d);
    case DoSuspend(t) => SuspendInv(s, t);
    case DoResume(t) => ResumeInv(s, t);
    case DoStart(t) => StartInv(s, t);
    case DoYield => FlagsInv(s, true, true);
    case DoTick => FlagsInv(s, s.toEqual, true);
    case DoExec(now) => ExecInv(s, now);
    case DoIrqSleep(i, at) => IrqSleepInv(s, i, at);
    case DoIrqResume(i) => IrqResumeInv(s, i);
    case DoPoll => IrqResumeInv(s, 0);
  }

  // Runs

  function Run(s: State, run: seq<Action>): (r: Outcome)
    decreases |run|
  {
    if run == [] then Ok(s) else
    match Step(s, run[0])
    case Ok(s1) => Run(s1, run[1..])
    case Halt(why) => Halt(why)
  }

  /** The kernel as `start` leaves it: idle runs, no other thread is started, nothing is locked. */
  ghost predicate Init(s: State) {
    && s.current == IDLE && IDLE in s.th && s.th[IDLE] == NOBODY.(state := Running)
    && (forall t :: t in s.th && t != IDLE ==> s.th[t] == NOBODY.(base := s.th[t].base) && s.th[t].base >= MIN)
    && s.ready == [] && s.blocked == [] && s.suspended == [] && s.sleep == []
    && s.alarm == None && s.owner == map[] && !s.Pending()
  }

  lemma InitInv(s: State)
    requires Init(s)
    ensures Inv(s)
  {
  }

  ghost predicate AllValid(run: seq<Action>) { forall i :: 0 <= i < |run| ==> Valid(run[i]) }

  /** In every run, whatever the program does, each thread is in the one place its state names and
      the queues, the alarm and the lock priorities stay right. */
  lemma {:induction false} RunInv(s: State, run: seq<Action>)
    requires Inv(s) && AllValid(run) && Run(s, run).Ok?
    ensures Inv(Run(s, run).s)
    decreases |run|
  {
    hide Inv;
    if run == [] {
    } else {
      StepInv(s, run[0]);
      RunInv(Step(s, run[0]).s, run[1..]);
    }
  }

  // Consequences for a single state

  lemma {:induction false} SectionIsMax(base: Prio, frames: seq<Frame>)
    requires base >= MIN
    ensures forall i :: 0 <= i < |frames| ==> frames[i].ceiling <= SectionPrio(base, frames)
    ensures frames != [] ==> SectionPrio(base, frames) >= base
    ensures frames != [] ==>
      || SectionPrio(base, frames) == base
      || exists i :: 0 <= i < |frames| && frames[i].ceiling == SectionPrio(base, frames)
  {
    if frames == [] {
    } else {
      var n := |frames| - 1;
      SectionIsMax(base, frames[..n]);
      assert forall i :: 0 <= i < n ==> frames[..n][i] == frames[i];
      if SectionPrio(base, frames) != base {
        if SectionPrio(base, frames) == frames[n].ceiling {
        } else {
          var i :| 0 <= i < n && frames[..n][i].ceiling == SectionPrio(base, frames[..n]);
          assert frames[i].ceiling == SectionPrio(base, frames);
        }
      }
    }
  }

  /** The cached active priority is the maximum of the base priority, the ceilings of the live
      sections and the ceilings of the owned locks, in whatever order locks were released. */
  lemma ActiveIsMax(x: Thread)
    requires Exact(x)
    ensures Active(x) >= x.base
    ensures forall i :: 0 <= i < |x.frames| ==> x.frames[i].ceiling <= LockPrio(x)
    ensures forall i :: 0 <= i < |x.locks| ==> x.locks[i].ceiling <= LockPrio(x)
    ensures Active(x) == x.base
            || (exists i :: 0 <= i < |x.frames| && x.frames[i].ceiling == Active(x))
            || (exists i :: 0 <= i < |x.locks| && x.locks[i].ceiling == Active(x))
    ensures Holds(x) <==> x.frames != [] || x.locks != []
    ensures Holds(x) ==> Active(x) == LockPrio(x)
    ensures x.threshold == Level(LockPrio(x))
  {
    SectionIsMax(x.base, x.frames);
    if x.locks != [] {
      AtElems(x.locks, 0);
      assert x.locks[0].ceiling == x.owned;
      forall i | 0 <= i < |x.locks| ensures x.locks[i].ceiling <= x.owned {
        assert i > 0 ==> CeilingKey()(x.locks[0]) >= CeilingKey()(x.locks[i]);
      }
    }
  }
}
