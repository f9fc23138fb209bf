/** What each scheduling action does, said over thread states and deadlines alone. The queues that the
    actions work on appear only in the order in which equals are served. */
module KernelEffects {
  import opened Wrappers
  import opened Lists
  import opened Kernel
  import opened KernelInvariants
  import Preemption
  import Timers

  function StateOf(s: State, t: Tid): ExecState { Get(s.th, t).state }

  /** Exactly the threads in `now` change, and of those only the execution state. */
  ghost predicate Moves(th: Threads, th': Threads, now: map<Tid, ExecState>) {
    && th'.Keys == th.Keys
    && forall t :: Get(th', t) == if t in now then Get(th, t).(state := now[t]) else Get(th, t)
  }

  /** A ready thread other than idle. */
  predicate Waits(s: State, t: Tid) { t != IDLE && StateOf(s, t) == Ready }

  lemma WaitsIff(s: State, t: Tid)
    requires Inv(s)
    ensures Waits(s, t) <==> t in Elems(s.ready)
    ensures StateOf(s, t) == Blocked <==> t in Elems(s.blocked)
    ensures Waits(s, t) || StateOf(s, t) == Blocked ==> t in s.th && t != s.current
  {
    hide Single, Ordered, Sleeping, NeverLate, AllExact, Owners, Elems;
  }

  lemma SetStateMoves(s: State, t: Tid, x: ExecState)
    requires t in s.th
    ensures Moves(s.th, SetState(s, t, x).th, map[t := x])
  {
  }

  // Where a thread joins a queue

  /** `t` joins `q` behind everyone in `front` and before everyone else. */
  ghost predicate Joins(q: seq<Tid>, t: Tid, r: seq<Tid>, front: Tid -> bool) {
    exists k: nat :: k <= |q| && r == q[..k] + [t] + q[k..]
      && (forall i :: 0 <= i < k ==> front(q[i])) && (forall i :: k <= i < |q| ==> !front(q[i]))
  }

  /** A lock-free thread is served after everyone of its priority, a lock holder before them. */
  function ServedFirst(th: Threads, t: Tid): Tid -> bool {
    u => ActiveOf(th, u) > ActiveOf(th, t) || (ActiveOf(th, u) == ActiveOf(th, t) && !Holds(Get(th, t)))
  }

  lemma ReadyPosition(th: Threads, q: seq<Tid>, t: Tid)
    requires ReadyOrdered(th, q)
    ensures Joins(q, t, InsertAfter(q, t, ReadyAfter(th, t)), ServedFirst(th, t))
  {
    var p, k := ReadyAfter(th, t), Scan(q, ReadyAfter(th, t));
    forall i | k <= i < |q| ensures !ServedFirst(th, t)(q[i]) {
      assert !p(q[k]);
      assert i > k ==> Rank(th, q[k]) >= Rank(th, q[i]);
    }
    assert InsertAfter(q, t, p) == q[..k] + [t] + q[k..];
  }

  /** A lock holder blocks behind everyone with a lock at least as high, a lock-free thread behind all
      lock holders. */
  function BlockedFirst(th: Threads, t: Tid): Tid -> bool {
    u => Holds(Get(th, u)) && LockPrioOf(th, u) >= LockPrioOf(th, t)
  }

  lemma BlockedPosition(th: Threads, q: seq<Tid>, t: Tid)
    requires BlockedOrdered(th, q)
    ensures Joins(q, t, InsertAfter(q, t, BlockedAfter(th, t)), BlockedFirst(th, t))
  {
    var p, k := BlockedAfter(th, t), Scan(q, BlockedAfter(th, t));
    forall i | k <= i < |q| ensures !BlockedFirst(th, t)(q[i]) {
      assert !p(q[k]);
      assert i > k ==> LockPrioOf(th, q[k]) >= LockPrioOf(th, q[i]);
    }
    assert InsertAfter(q, t, p) == q[..k] + [t] + q[k..];
  }

  // Giving up the processor

  /** A waiting thread above every lock of the current thread and of every blocked one. */
  ghost predicate Eligible(s: State, t: Tid) {
    && Waits(s, t) && ActiveOf(s.th, t) > MIN && ActiveOf(s.th, t) > LockPrioOf(s.th, s.current)
    && forall u :: StateOf(s, u) == Blocked ==> ActiveOf(s.th, t) > LockPrioOf(s.th, u)
  }

  lemma EligibleIff(s: State, t: Tid)
    requires Inv(s)
    ensures Eligible(s, t) <==> Waits(s, t) && ActiveOf(s.th, t) > Max(LocksCeiling(s), MIN)
  {
    Preemption.CeilingIsFullScan(s);
    hide Inv, LocksCeiling, Elems;
    forall u ensures StateOf(s, u) == Blocked <==> u in Elems(s.blocked) { WaitsIff(s, u); }
  }

  /** `next` is idle exactly when nobody is eligible, and otherwise the most urgent eligible thread, of
      equals the one that is served first. */
  ghost predicate TakesOver(s: State, next: Tid) {
    && (next == IDLE <==> forall t :: !Eligible(s, t))
    && (next != IDLE ==>
          && Eligible(s, next) && s.ready != [] && next == s.ready[0]
          && forall t :: Eligible(s, t) ==> ActiveOf(s.th, t) <= ActiveOf(s.th, next))
  }

  lemma HeadWaits(s: State)
    requires Inv(s) && s.ready != []
    ensures Waits(s, s.ready[0])
    ensures forall t :: Waits(s, t) ==> ActiveOf(s.th, t) <= ActiveOf(s.th, s.ready[0])
  {
    AtElems(s.ready, 0);
    WaitsIff(s, s.ready[0]);
    forall t | Waits(s, t) ensures ActiveOf(s.th, t) <= ActiveOf(s.th, s.ready[0]) {
      WaitsIff(s, t);
      Preemption.ReadyHead(s.th, s.ready, t);
    }
  }

  lemma NobodyWaits(s: State)
    requires Inv(s) && s.ready == []
    ensures forall t :: !Waits(s, t)
  {
    forall t ensures !Waits(s, t) { WaitsIff(s, t); }
  }

  lemma SwitchMoves(s: State, next: Tid)
    requires s.current in s.th && next in s.th && next != s.current
    ensures Moves(s.th, Switch(s, next).th, map[s.current := Ready, next := Running])
    ensures Switch(s, next) == s.(th := Switch(s, next).th, current := next)
  {
  }

  lemma PopsEligible(s: State)
    requires Inv(s)
    ensures var (s1, next) := PopAbove(s, Max(LocksCeiling(s), MIN), IDLE);
      && TakesOver(s, next) && next in s.th && (next == s.current ==> s.current == IDLE)
      && s1 == s.(ready := if next == IDLE then s.ready else s.ready[1..])
  {
    hide Inv, Eligible, LocksCeiling, Elems;
    CurrentKnown(s);
    if s.ready == [] { NobodyWaits(s); } else { HeadWaits(s); WaitsIff(s, s.ready[0]); }
    forall t ensures Eligible(s, t) <==> Waits(s, t) && ActiveOf(s.th, t) > Max(LocksCeiling(s), MIN) {
      EligibleIff(s, t);
    }
  }

  lemma LeaveCpuEffect(s: State)
    requires Inv(s) && s.current != IDLE
    ensures var r := LeaveCpu(s);
      && TakesOver(s, r.current)
      && Moves(s.th, r.th, map[s.current := Ready, r.current := Running]) && r.current != s.current
      && r == s.(th := r.th, ready := r.ready, current := r.current)
      && r.ready == if r.current == IDLE then s.ready else s.ready[1..]
  {
    hide Inv, TakesOver, LocksCeiling, PopAbove, Switch, Moves;
    CurrentKnown(s);
    PopsEligible(s);
    var (s1, next) := PopAbove(s, Max(LocksCeiling(s), MIN), IDLE);
    SwitchMoves(s1, next);
  }

  /** Blocking: the thread and, if it gave one, its deadline are queued, and the processor goes to the
      most urgent eligible thread. */
  lemma BlockEffect(s: State, d: Option<nat>)
    requires Inv(s)
    ensures BlockCurrent(s, d).Ok? <==> s.current != IDLE
    ensures s.current != IDLE ==>
      var r := BlockCurrent(s, d).s;
      && TakesOver(s, r.current) && r.current != s.current
      && Moves(s.th, r.th, map[s.current := Blocked, r.current := Running])
      && Elems(r.sleep) == Elems(s.sleep) + (if d.Some? then {Sleeper(Thr(s.current), d.value)} else {})
      && (if d.Some? then r.alarm == Earliest(r.sleep) else r.alarm == s.alarm && r.sleep == s.sleep)
      && r.ready == (if r.current == IDLE then s.ready else s.ready[1..]) && r.suspended == s.suspended
      && Joins(s.blocked, s.current, r.blocked, BlockedFirst(s.th, s.current))
      && r.toEqual == s.toEqual && r.toHigher == s.toHigher && r.owner == s.owner && r.polls == s.polls
  {
    if s.current != IDLE {
      hide Inv, LeaveCpu, Elems, TakesOver, Moves, Joins, InsertAfter, SleepAfter, BlockedFirst, BlockedAfter, SetState;
      LeaveCpuEffect(s);
      CurrentKnown(s);
      BlockedMoves(s, LeaveCpu(s), s.current);
      BlockedJoins(s, LeaveCpu(s), s.current);
      BlockSleeps(s, d);
    }
  }

  lemma BlockSleeps(s: State, d: Option<nat>)
    requires s.current != IDLE && LeaveCpu(s).sleep == s.sleep && LeaveCpu(s).alarm == s.alarm
    requires s.current in s.th && s.current in LeaveCpu(s).th
    ensures var r, s1 := BlockCurrent(s, d).s, LeaveCpu(s);
      && Elems(r.sleep) == Elems(s.sleep) + (if d.Some? then {Sleeper(Thr(s.current), d.value)} else {})
      && (if d.Some? then r.alarm == Earliest(r.sleep) else r.alarm == s.alarm && r.sleep == s.sleep)
      && r == s1.(th := SetState(s1, s.current, Blocked).th, sleep := r.sleep, alarm := r.alarm,
                  blocked := InsertAfter(s1.blocked, s.current, BlockedAfter(s1.th, s.current)))
  {
    hide LeaveCpu, Elems, InsertAfter, SleepAfter, BlockedAfter;
    if d.Some? { InsertElems(s.sleep, Sleeper(Thr(s.current), d.value), SleepAfter(d.value)); }
  }

  lemma BlockedMoves(s: State, s1: State, c: Tid)
    requires c in s.th && c != s1.current && Moves(s.th, s1.th, map[c := Ready, s1.current := Running])
    ensures c in s1.th && Moves(s.th, SetState(s1, c, Blocked).th, map[c := Blocked, s1.current := Running])
  {
  }

  lemma BlockedJoins(s: State, s1: State, c: Tid)
    requires Inv(s) && Moves(s.th, s1.th, map[c := Ready, s1.current := Running]) && c in s.th
    ensures c in s1.th
    ensures Joins(s.blocked, c, InsertAfter(s.blocked, c, BlockedAfter(s1.th, c)), BlockedFirst(s.th, c))
  {
    assert BlockedOrdered(s.th, s.blocked);
    hide Inv, InsertAfter;
    assert forall u :: LockPrioOf(s1.th, u) == LockPrioOf(s.th, u);
    SameScan(s.blocked, BlockedAfter(s1.th, c), BlockedAfter(s.th, c));
    BlockedPosition(s.th, s.blocked, c);
  }

  lemma {:induction false} SameScan(q: seq<Tid>, p: Tid -> bool, p': Tid -> bool)
    requires forall u :: p(u) == p'(u)
    ensures Scan(q, p) == Scan(q, p') && forall t :: InsertAfter(q, t, p) == InsertAfter(q, t, p')
  {
    if q == [] {
    } else {
      SameScan(q[1..], p, p');
    }
  }

  // Suspending

  /** Suspension fails for idle, for a blocked thread and for one that was never started; a suspended
      thread stays as it is, and a running one hands over the processor as if it blocked. */
  lemma SuspendEffect(s: State, t: Tid)
    requires Inv(s)
    ensures Suspend(s, t).Ok? <==> t != IDLE && StateOf(s, t) !in {Blocked, Created}
    ensures Suspend(s, t).Ok? ==>
      var r := Suspend(s, t).s;
      && (t != s.current ==> r.current == s.current && Moves(s.th, r.th, map[t := Suspended]))
      && (t == s.current ==> TakesOver(s, r.current) && r.current != t
                             && Moves(s.th, r.th, map[t := Suspended, r.current := Running]))
      && r.suspended == (if StateOf(s, t) == Suspended then s.suspended else s.suspended + [t])
      && (t != s.current ==> r.ready == Without(s.ready, t))
      && (t == s.current ==> r.ready == if r.current == IDLE then s.ready else s.ready[1..])
      && r == s.(th := r.th, ready := r.ready, suspended := r.suspended, current := r.current)
  {
    hide Inv, LeaveCpu, Without, TakesOver, Moves, SetState;
    CurrentKnown(s);
    RunsAlone(s, t);
    if Suspend(s, t).Ok? {
      if t == s.current {
        LeaveCpuEffect(s);
        SuspendedMoves(s, LeaveCpu(s), t);
      } else {
        OtherMoves(s, t);
      }
    }
  }

  lemma RunsAlone(s: State, t: Tid)
    requires Inv(s)
    ensures StateOf(s, t) == Running <==> t == s.current
    ensures StateOf(s, t) != Created ==> t in s.th
    ensures StateOf(s, t) != Ready && t != s.current ==> Without(s.ready, t) == s.ready
  {
    WaitsIff(s, t);
    assert Placed(s, {});
    hide Single, Ordered, Sleeping, NeverLate, AllExact, Owners, Elems;
    if StateOf(s, t) != Ready { WithoutAbsent(s.ready, t); }
  }

  lemma {:induction false} WithoutAbsent(q: seq<Tid>, t: Tid)
    requires t !in Elems(q)
    ensures Without(q, t) == q
  {
    if q == [] {
    } else {
      WithoutAbsent(q[1..], t);
    }
  }

  lemma SuspendedMoves(s: State, s1: State, c: Tid)
    requires c in s.th && c != s1.current && Moves(s.th, s1.th, map[c := Ready, s1.current := Running])
    ensures c in s1.th && SetState(s1, c, Suspended) == s1.(th := SetState(s1, c, Suspended).th)
    ensures Moves(s.th, SetState(s1, c, Suspended).th, map[c := Suspended, s1.current := Running])
  {
  }

  lemma OtherMoves(s: State, t: Tid)
    requires t in s.th
    ensures Moves(s.th, SetState(s, t, Suspended).th, map[t := Suspended])
    ensures StateOf(s, t) == Suspended ==> Moves(s.th, s.th, map[t := Suspended])
    ensures forall q :: SetState(s.(ready := q), t, Suspended) == s.(ready := q, th := SetState(s, t, Suspended).th)
  {
  }

  // Resuming

  predicate Resumable(x: ExecState) { x in {Blocked, Suspended, Started} }

  /** Making a thread ready touches nothing else: it leaves its list and, if it was blocked, the sleep
      queue, and joins the ready queue where its priority and locks put it. */
  lemma MakeReadyEffect(s: State, t: Tid)
    requires Inv(s)
    ensures var r := MakeReady(s, t);
      if !Resumable(StateOf(s, t)) then r == s else
      && t != IDLE && Moves(s.th, r.th, map[t := Ready])
      && Joins(s.ready, t, r.ready, ServedFirst(s.th, t))
      && r.blocked == Without(s.blocked, t) && r.suspended == Without(s.suspended, t)
      && (forall e :: e in Elems(r.sleep) <==> e in Elems(s.sleep) && e.who != Thr(t))
      && r == s.(th := r.th, ready := r.ready, blocked := r.blocked, suspended := r.suspended, sleep := r.sleep)
  {
    if Resumable(StateOf(s, t)) {
      LeavesLists(s, t);
      hide Inv, Without, Awake, InsertAfter, ReadyAfter, Moves, Joins, ServedFirst, Elems, ReadyOrdered;
      SetStateMoves(s, t, Ready);
      ReadyPosition(s.th, s.ready, t);
    }
  }

  lemma LeavesLists(s: State, t: Tid)
    requires Inv(s) && Resumable(StateOf(s, t))
    ensures t in s.th && t != IDLE && t != s.current && ReadyOrdered(s.th, s.ready)
    ensures StateOf(s, t) != Blocked ==> Without(s.blocked, t) == s.blocked
    ensures StateOf(s, t) != Suspended ==> Without(s.suspended, t) == s.suspended
    ensures forall e :: e in Elems(Awake(s.sleep, Thr(t))) <==> e in Elems(s.sleep) && e.who != Thr(t)
    ensures StateOf(s, t) != Blocked ==> forall e :: e in Elems(s.sleep) ==> e.who != Thr(t)
  {
    hide Single, ReadyOrdered, BlockedOrdered, NeverLate, AllExact, Owners, Elems, Ascending, Distinct;
    AwakeElems(s.sleep, Thr(t));
    if StateOf(s, t) != Blocked { WithoutAbsent(s.blocked, t); }
    if StateOf(s, t) != Suspended { WithoutAbsent(s.suspended, t); }
  }

  /** Above the running thread and above every lock of the running thread and of the blocked ones. */
  ghost predicate Urgent(s: State, t: Tid) {
    && ActiveOf(s.th, t) > ActiveOf(s.th, s.current)
    && forall u :: StateOf(s, u) == Blocked ==> ActiveOf(s.th, t) > LockPrioOf(s.th, u)
  }

  /** Resuming asks for a reschedule exactly when the thread could run at once; it never asks for one
      that yields to equals. */
  lemma ResumeEffect(s: State, t: Tid)
    requires Inv(s)
    ensures var r, s1 := Resume(s, t), MakeReady(s, t);
      && r == s1.(toHigher := r.toHigher) && r.toEqual == s.toEqual
      && (r.toHigher <==> s.toHigher || Urgent(s1, t))
  {
    hide Inv, MakeReady, LocksCeiling, Elems;
    var s1 := MakeReady(s, t);
    MakeReadyInv(s, t);
    Preemption.MakeReadyFlags(s, t);
    Preemption.CeilingIsFullScan(s1);
    forall u ensures StateOf(s1, u) == Blocked <==> u in Elems(s1.blocked) { WaitsIff(s1, u); }
  }

  lemma StartEffect(s: State, t: Tid)
    requires Inv(s)
    ensures Start(s, t).Ok? <==> StateOf(s, t) == Created
    ensures Start(s, t).Ok? && t in s.th ==>
      var r := Start(s, t).s;
      Moves(s.th, r.th, map[t := Ready]) && Joins(s.ready, t, r.ready, ServedFirst(s.th, t)) && r.sleep == s.sleep
  {
    hide Inv, Resume, MakeReady, Joins, Moves, ServedFirst, Elems, Resumable;
    if Start(s, t).Ok? && t in s.th {
      var s1 := SetState(s, t, Started);
      StartedInv(s, t);
      SetStateMoves(s, t, Started);
      ResumeEffect(s1, t);
      MakeReadyEffect(s1, t);
      StartedSame(s, t);
    }
  }

  lemma StartedSame(s: State, t: Tid)
    requires t in s.th
    ensures var s1 := SetState(s, t, Started);
      && StateOf(s1, t) == Started && Resumable(Started) && s1.ready == s.ready && s1.sleep == s.sleep
      && MakeReady(s1, t).sleep == s.sleep
      && (forall th' :: Moves(s1.th, th', map[t := Ready]) ==> Moves(s.th, th', map[t := Ready]))
      && (forall r :: Joins(s.ready, t, r, ServedFirst(s1.th, t)) ==> Joins(s.ready, t, r, ServedFirst(s.th, t)))
  {
    hide InsertAfter, ReadyAfter;
    var s1 := SetState(s, t, Started);
    assert forall u :: ServedFirst(s1.th, t)(u) == ServedFirst(s.th, t)(u);
  }

  // Rescheduling

  /** A waiting thread that a reschedule prefers to the current one. */
  predicate Outranks(s: State, t: Tid, equal: bool) {
    && Waits(s, t)
    && (ActiveOf(s.th, t) > ActiveOf(s.th, s.current) || (equal && ActiveOf(s.th, t) == ActiveOf(s.th, s.current)))
  }

  /** A preemption switches exactly when a waiting thread outranks the current one, and then to the most
      urgent one, of equals to the one that is served first. Nothing else moves. */
  lemma PreemptEffect(s: State, equal: bool)
    requires Inv(s)
    ensures var r := Preempt(s, equal);
      && (r.current != s.current <==> exists t :: Outranks(s, t, equal))
      && (r.current == s.current ==> r == s)
      && (r.current != s.current ==>
            && Outranks(s, r.current, equal) && s.ready != [] && r.current == s.ready[0]
            && (forall t :: Waits(s, t) ==> ActiveOf(s.th, t) <= ActiveOf(s.th, r.current))
            && Moves(s.th, r.th, map[s.current := Ready, r.current := Running])
            && (if s.current == IDLE then r.ready == s.ready[1..]
                else Joins(s.ready[1..], s.current, r.ready, ServedFirst(s.th, s.current)))
            && r == s.(th := r.th, ready := r.ready, current := r.current))
  {
    hide Inv, Switch, ToReady, Moves, Joins, ServedFirst, ActiveOf;
    CurrentKnown(s);
    if s.ready == [] {
      NobodyWaits(s);
    } else {
      var h, c := s.ready[0], s.current;
      HeadWaits(s);
      WaitsIff(s, h);
      if Outranks(s, h, equal) {
        var s1 := s.(ready := s.ready[1..]);
        SwitchMoves(s1, h);
        ReturnsReady(s, s1, h);
      } else {
        assert forall t :: !Outranks(s, t, equal);
      }
    }
  }

  /** The preempted thread goes back to the ready queue. */
  lemma ReturnsReady(s: State, s1: State, h: Tid)
    requires Inv(s) && s.ready != [] && s1 == s.(ready := s.ready[1..]) && h in s.th && h != s.current
    ensures var r := ToReady(Switch(s1, h), s.current);
      && r == s.(th := Switch(s1, h).th, ready := r.ready, current := h)
      && (if s.current == IDLE then r.ready == s.ready[1..]
          else Joins(s.ready[1..], s.current, r.ready, ServedFirst(s.th, s.current)))
  {
    CurrentKnown(s);
    SwitchMoves(s1, h);
    TailOrdered(s);
    hide Inv, Switch, InsertAfter, ReadyOrdered, Joins, ServedFirst, ReadyAfter;
    var s2, c := Switch(s1, h), s.current;
    AlreadyReady(s.th, s2.th, c, h);
    ReadyPosition(s.th, s1.ready, c);
  }

  lemma AlreadyReady(th: Threads, th': Threads, c: Tid, h: Tid)
    requires c in th && c != h && Moves(th, th', map[c := Ready, h := Running])
    ensures c in th' && th'[c := th'[c].(state := Ready)] == th'
    ensures forall q :: InsertAfter(q, c, ReadyAfter(th', c)) == InsertAfter(q, c, ReadyAfter(th, c))
  {
    assert Get(th', c) == th'[c];
    hide InsertAfter;
    assert forall u :: ActiveOf(th', u) == ActiveOf(th, u) && Holds(Get(th', u)) == Holds(Get(th, u));
    forall q ensures InsertAfter(q, c, ReadyAfter(th', c)) == InsertAfter(q, c, ReadyAfter(th, c)) {
      SameScan(q, ReadyAfter(th', c), ReadyAfter(th, c));
    }
  }

  lemma TailOrdered(s: State)
    requires Inv(s) && s.ready != []
    ensures ReadyOrdered(s.th, s.ready[1..])
  {
    assert ReadyOrdered(s.th, s.ready);
    hide Inv, Rank;
  }

  /** The state of a thread once everyone due has been woken. */
  ghost function Woken(s: State, now: nat, t: Tid): ExecState {
    if Timers.Due(s.sleep, Thr(t), now) then Ready else StateOf(s, t)
  }

  ghost predicate OutranksWoken(s: State, now: nat, t: Tid) {
    && t != IDLE && Woken(s, now, t) == Ready
    && (ActiveOf(s.th, t) > ActiveOf(s.th, s.current) || (s.toEqual && ActiveOf(s.th, t) == ActiveOf(s.th, s.current)))
  }

  /** A reschedule does nothing unless one is pending. It wakes exactly the sleepers that are due and then
      switches exactly when somebody ready outranks the current thread, equals counting only after a yield. */
  lemma ExecEffect(s: State, now: nat)
    requires Inv(s)
    ensures var r := Exec(s, now);
      if !s.Pending() then r == s else
      && !r.Pending() && r.owner == s.owner
      && (r.current != s.current <==> exists t :: OutranksWoken(s, now, t))
      && (r.current != s.current ==> OutranksWoken(s, now, r.current))
      && (forall t :: OutranksWoken(s, now, t) ==> ActiveOf(s.th, t) <= ActiveOf(s.th, r.current))
      && (forall t :: StateOf(r, t) ==
            if t == r.current then Running else if t == s.current then Ready else Woken(s, now, t))
      && (forall e :: e in Elems(r.sleep) <==> e in Elems(s.sleep) && e.at > now)
      && (forall i: nat :: i in r.polls <==> i in s.polls || Timers.Due(s.sleep, Irq(i), now))
      && r.alarm == Earliest(r.sleep)
  {
    hide Inv, WakeExpired, Preempt, Elems, Timers.Due, Woken, OutranksWoken, StateOf, ActiveOf, Outranks;
    if s.Pending() {
      var s1 := WakeExpired(s.(toEqual := false, toHigher := false), now);
      ExecMiddle(s, now);
      PreemptStates(s1, s.toEqual);
      forall t ensures Outranks(s1, t, s.toEqual) <==> OutranksWoken(s, now, t) { SameOutranks(s, s1, now, t); }
    }
  }

  lemma SameOutranks(s: State, s1: State, now: nat, t: Tid)
    requires s1.current == s.current && StateOf(s1, t) == Woken(s, now, t)
    requires ActiveOf(s1.th, t) == ActiveOf(s.th, t) && ActiveOf(s1.th, s.current) == ActiveOf(s.th, s.current)
    ensures Outranks(s1, t, s.toEqual) <==> OutranksWoken(s, now, t)
  {
  }

  /** The state of a thread once `next` has taken over. */
  function Switched(s: State, next: Tid, t: Tid): ExecState {
    if t == next then Running else if t == s.current then Ready else StateOf(s, t)
  }

  /** A preemption by thread states. */
  lemma PreemptStates(s: State, equal: bool)
    requires Inv(s)
    ensures var r := Preempt(s, equal);
      && (r.current != s.current <==> exists t :: Outranks(s, t, equal))
      && (r.current != s.current ==> Outranks(s, r.current, equal))
      && (forall t :: Outranks(s, t, equal) ==> ActiveOf(s.th, t) <= ActiveOf(s.th, r.current))
      && (forall t :: StateOf(r, t) == Switched(s, r.current, t))
      && r == s.(th := r.th, ready := r.ready, current := r.current)
  {
    hide Inv, Preempt, Moves, Joins, ActiveOf;
    PreemptEffect(s, equal);
    RunsAlone(s, s.current);
    var r := Preempt(s, equal);
    if r.current != s.current {
      forall t ensures StateOf(r, t) == Switched(s, r.current, t) { MovesAt(s.th, r.th, s.current, r.current, t); }
    }
  }

  lemma MovesAt(th: Threads, th': Threads, c: Tid, n: Tid, t: Tid)
    requires Moves(th, th', map[c := Ready, n := Running]) && c != n
    ensures Get(th', t).state == if t == n then Running else if t == c then Ready else Get(th, t).state
  {
  }

  /** The kernel between the wake-ups and the preemption. */
  lemma ExecMiddle(s: State, now: nat)
    requires Inv(s)
    ensures var s1 := WakeExpired(s.(toEqual := false, toHigher := false), now);
      && Inv(s1) && s1.current == s.current && s1.owner == s.owner && !s1.toEqual && !s1.toHigher
      && (forall t :: StateOf(s1, t) == Woken(s, now, t) && ActiveOf(s1.th, t) == ActiveOf(s.th, t))
      && (forall e :: e in Elems(s1.sleep) <==> e in Elems(s.sleep) && e.at > now)
      && (forall i: nat :: i in s1.polls <==> i in s.polls || Timers.Due(s.sleep, Irq(i), now))
      && s1.alarm == Earliest(s1.sleep)
  {
    hide Inv, WakeExpired, Elems, Timers.Due, OnlyStates;
    var s0 := s.(toEqual := false, toHigher := false);
    FlagsInv(s, false, false);
    WakeExpiredInv(s0, now);
    Timers.WakesExactlyTheDue(s0, now);
    Preemption.ScheduledAlike(s0, WakeExpired(s0, now));
    WakeExpiredFlags(s0, now);
  }

  lemma {:induction false} WakeExpiredFlags(s: State, now: nat)
    ensures WakeExpired(s, now).toEqual == s.toEqual && WakeExpired(s, now).toHigher == s.toHigher
    decreases |s.sleep|
  {
    if s.sleep == [] || s.sleep[0].at > now {
    } else {
      hide ToReady;
      var s0 := s.(sleep := s.sleep[1..]);
      var s1 := Wake(s0, s.sleep[0].who);
      if s.sleep[0].who.Thr? { ToReadyFlags(s0.(blocked := Without(s0.blocked, s.sleep[0].who.t)), s.sleep[0].who.t); }
      Timers.WakeUnfold(s, now);
      assert s1.sleep == s.sleep[1..];
      WakeExpiredFlags(s1, now);
    }
  }

  lemma ToReadyFlags(s: State, t: Tid)
    ensures ToReady(s, t).toEqual == s.toEqual && ToReady(s, t).toHigher == s.toHigher && ToReady(s, t).sleep == s.sleep
  {
    hide InsertAfter, ReadyAfter;
  }

  /** In every run a reschedule that was not asked for by a yield, such as that of a timer tick, leaves the
      processor to the current thread unless somebody strictly more urgent is ready. */
  lemma TickNeverRotates(s: State, run: seq<Action>, now: nat)
    requires Init(s) && AllValid(run) && Run(s, run).Ok? && !Run(s, run).s.toEqual
    ensures var r := Run(s, run).s; var r' := Exec(r, now);
      r'.current != r.current ==> ActiveOf(r.th, r'.current) > ActiveOf(r.th, r.current)
  {
    hide Run, Inv, Exec, Init;
    InitInv(s);
    RunInv(s, run);
    ExecEffect(Run(s, run).s, now);
  }

  /** The reschedule after a yield switches whenever somebody at least as urgent is ready. */
  lemma YieldSwitchesIff(s: State, y: State, now: nat)
    requires Inv(s) && Step(s, DoYield) == Ok(y)
    ensures Exec(y, now).current != s.current <==>
      exists t :: t != IDLE && Woken(s, now, t) == Ready && ActiveOf(s.th, t) >= ActiveOf(s.th, s.current)
  {
    hide Inv, Exec, Timers.Due;
    FlagsInv(s, true, true);
    ExecEffect(y, now);
    assert forall t :: OutranksWoken(y, now, t) <==>
      t != IDLE && Woken(s, now, t) == Ready && ActiveOf(s.th, t) >= ActiveOf(s.th, s.current);
  }

  /** The reschedule after a tick switches only when somebody more urgent is ready, and then always. */
  lemma TickSwitchesIff(s: State, y: State, now: nat)
    requires Inv(s) && !s.toEqual && Step(s, DoTick) == Ok(y)
    ensures Exec(y, now).current != s.current <==>
      exists t :: t != IDLE && Woken(s, now, t) == Ready && ActiveOf(s.th, t) > ActiveOf(s.th, s.current)
  {
    hide Inv, Exec, Timers.Due;
    FlagsInv(s, false, true);
    ExecEffect(y, now);
    assert forall t :: OutranksWoken(y, now, t) <==>
      t != IDLE && Woken(s, now, t) == Ready && ActiveOf(s.th, t) > ActiveOf(s.th, s.current);
  }

  // Handlers in the sleep queue

  /** A handler that asks to be woken is queued under that deadline and no other, and the alarm follows. */
  lemma IrqSleepEffect(s: State, i: nat, at: nat, r: State)
    requires Inv(s) && Step(s, DoIrqSleep(i, at)) == Ok(r)
    ensures forall e :: e in Elems(r.sleep) <==> (e in Elems(s.sleep) && e.who != Irq(i)) || e == Sleeper(Irq(i), at)
    ensures r.alarm.Some? && r.alarm.value <= at && r == s.(sleep := r.sleep, alarm := r.alarm)
  {
    hide Inv, Elems, Awake, Step, ToSleep;
    SleepsOnce(s, i, at);
    IrqSleepStep(s, i, at);
    IrqSleepInv(s, i, at);
    AlarmReaches(r, Sleeper(Irq(i), at));
  }

  lemma IrqSleepStep(s: State, i: nat, at: nat)
    ensures Step(s, DoIrqSleep(i, at)) == Ok(ToSleep(s.(sleep := Awake(s.sleep, Irq(i))), Irq(i), at))
  {
    hide ToSleep, Awake;
  }

  lemma SleepsOnce(s: State, i: nat, at: nat)
    requires Inv(s)
    ensures var r := ToSleep(s.(sleep := Awake(s.sleep, Irq(i))), Irq(i), at);
      && (forall e :: e in Elems(r.sleep) <==> (e in Elems(s.sleep) && e.who != Irq(i)) || e == Sleeper(Irq(i), at))
      && r == s.(sleep := r.sleep, alarm := r.alarm)
  {
    assert Distinct(s.sleep);
    hide Inv, Elems, InsertAfter, SleepAfter, Awake, Distinct;
    AwakeElems(s.sleep, Irq(i));
    InsertElems(Awake(s.sleep, Irq(i)), Sleeper(Irq(i), at), SleepAfter(at));
  }

  lemma AlarmReaches(s: State, e: Sleeper)
    requires Inv(s) && e in Elems(s.sleep)
    ensures s.alarm.Some? && s.alarm.value <= e.at && (e.who.Thr? ==> StateOf(s, e.who.t) == Blocked)
  {
    var j := ElemsAt(s.sleep, e);
    hide Elems, Single, Ordered, AllExact, Owners;
  }

  /** A resumed handler leaves the sleep queue and is polled at the next poll. */
  lemma IrqResumeEffect(s: State, i: nat, r: State)
    requires Inv(s) && Step(s, DoIrqResume(i)) == Ok(r)
    ensures forall e :: e in Elems(r.sleep) <==> e in Elems(s.sleep) && e.who != Irq(i)
    ensures r.polls == s.polls + {i} && r == s.(sleep := r.sleep, polls := r.polls)
  {
    assert Distinct(s.sleep);
    hide Inv, Elems, Awake, Distinct;
    AwakeElems(s.sleep, Irq(i));
  }

  // A block with a deadline, over whole runs

  /** Steps that may end thread `t`'s sleep until `at`. */
  predicate Ends(a: Action, t: Tid, at: nat) { a == DoResume(t) || (a.DoExec? && a.now >= at) }

  lemma KeepsSleeping(s: State, a: Action, t: Tid, at: nat)
    requires Inv(s) && Valid(a) && Step(s, a).Ok? && !Ends(a, t, at) && Sleeper(Thr(t), at) in Elems(s.sleep)
    ensures Sleeper(Thr(t), at) in Elems(Step(s, a).s.sleep)
  {
    hide Inv, Elems, Resume, Exec, Suspend, BlockCurrent, Start, Acquire, Release, EnterSection, LeaveSection;
    hide ToSleep, Awake, TakesOver, Moves, Joins;
    AlarmReaches(s, Sleeper(Thr(t), at));
    match a
    case DoBlock(d) => BlockKeeps(s, d, t, at);
    case DoSuspend(u) => SuspendEffect(s, u);
    case DoResume(u) => ResumeKeeps(s, u, t, at);
    case DoStart(u) => StartKeeps(s, u, t, at);
    case DoExec(now) => ExecKeeps(s, now, t, at);
    case DoIrqSleep(i, when) => IrqSleepEffect(s, i, when, Step(s, a).s);
    case DoIrqResume(i) => IrqResumeEffect(s, i, Step(s, a).s);
    case DoAcquire(_) => Timers.LockingKeeps(s, a);
    case DoRelease(_) => Timers.LockingKeeps(s, a);
    case DoEnter(_) => Timers.LockingKeeps(s, a);
    case DoLeave => Timers.LockingKeeps(s, a);
    case _ =>
  }

  lemma BlockKeeps(s: State, d: Option<nat>, t: Tid, at: nat)
    requires Inv(s) && BlockCurrent(s, d).Ok? && Sleeper(Thr(t), at) in Elems(s.sleep)
    ensures Sleeper(Thr(t), at) in Elems(BlockCurrent(s, d).s.sleep)
  {
    hide Inv, Elems, BlockCurrent, TakesOver, Moves, Joins;
    BlockEffect(s, d);
  }

  lemma ExecKeeps(s: State, now: nat, t: Tid, at: nat)
    requires Inv(s) && now < at && Sleeper(Thr(t), at) in Elems(s.sleep)
    ensures Sleeper(Thr(t), at) in Elems(Exec(s, now).sleep)
  {
    hide Inv, Elems, Exec, OutranksWoken, Woken, Timers.Due;
    ExecEffect(s, now);
  }

  lemma ResumeKeeps(s: State, u: Tid, t: Tid, at: nat)
    requires Inv(s) && u != t && Sleeper(Thr(t), at) in Elems(s.sleep)
    ensures Sleeper(Thr(t), at) in Elems(Resume(s, u).sleep)
  {
    hide Inv, Elems, Resume, MakeReady, Moves, Joins;
    ResumeEffect(s, u);
    MakeReadyEffect(s, u);
  }

  lemma StartKeeps(s: State, u: Tid, t: Tid, at: nat)
    requires Inv(s) && Start(s, u).Ok? && StateOf(s, t) == Blocked && Sleeper(Thr(t), at) in Elems(s.sleep)
    ensures Sleeper(Thr(t), at) in Elems(Start(s, u).s.sleep)
  {
    hide Inv, Elems, Resume;
    StartedInv(s, u);
    ResumeKeeps(SetState(s, u, Started), u, t, at);
  }

  lemma {:induction false} SleepsOn(s: State, run: seq<Action>, t: Tid, at: nat)
    requires Inv(s) && AllValid(run) && Run(s, run).Ok? && Sleeper(Thr(t), at) in Elems(s.sleep)
    requires forall i :: 0 <= i < |run| ==> !Ends(run[i], t, at)
    ensures Inv(Run(s, run).s) && Sleeper(Thr(t), at) in Elems(Run(s, run).s.sleep)
    decreases |run|
  {
    hide Inv, Step, Elems, Ends;
    if run == [] {
    } else {
      StepInv(s, run[0]);
      KeepsSleeping(s, run[0], t, at);
      SleepsOn(Step(s, run[0]).s, run[1..], t, at);
    }
  }

  /** A thread that blocks with a deadline stays blocked, queued under that deadline and with an alarm no
      later than it, through any run without its resume or a reschedule that late. The first pending
      reschedule at or after the deadline then makes it ready or runs it. */
  lemma DelayEnds(s: State, at: nat, run: seq<Action>, now: nat)
    requires Inv(s) && BlockCurrent(s, Some(at)).Ok? && AllValid(run)
    requires forall i :: 0 <= i < |run| ==> !Ends(run[i], s.current, at)
    requires Run(BlockCurrent(s, Some(at)).s, run).Ok?
    ensures var r, t := Run(BlockCurrent(s, Some(at)).s, run).s, s.current;
      && StateOf(r, t) == Blocked && Sleeper(Thr(t), at) in Elems(r.sleep) && r.alarm.Some? && r.alarm.value <= at
      && (r.Pending() && now >= at ==> StateOf(Exec(r, now), t) in {Ready, Running})
  {
    hide Inv, BlockCurrent, Run, Elems, Exec, TakesOver, Joins, Moves, Ends;
    var b, t := BlockCurrent(s, Some(at)).s, s.current;
    BlockEffect(s, Some(at));
    BlockInv(s, Some(at));
    SleepsOn(b, run, t, at);
    var r := Run(b, run).s;
    AlarmReaches(r, Sleeper(Thr(t), at));
    if r.Pending() && now >= at { ExecEffect(r, now); }
  }

  // Locks

  ghost predicate Owned(s: State, l: Lock, t: Tid) { l in Elems(Get(s.th, t).locks) }

  lemma OwnedIff(s: State, l: Lock)
    requires Inv(s)
    ensures forall t :: Owned(s, l, t) <==> l in s.owner && s.owner[l] == t
  {
    hide Placed, Single, Ordered, Sleeping, NeverLate, AllExact, Elems;
    forall t ensures Owned(s, l, t) <==> l in s.owner && s.owner[l] == t {
      assert Owns(s.owner, l, t) <==> Owned(s, l, t);
    }
  }

  /** Only the lock fields of the current thread change. */
  ghost predicate Relocks(s: State, r: State) {
    && r.th.Keys == s.th.Keys && (forall t :: t != s.current ==> Get(r.th, t) == Get(s.th, t))
    && StateOf(r, s.current) == StateOf(s, s.current) && Get(r.th, s.current).base == Get(s.th, s.current).base
    && r == s.(th := r.th, owner := r.owner, toHigher := r.toHigher)
  }

  lemma SetLocksRelocks(s: State, locks: seq<Lock>, frames: seq<Frame>, section: Prio)
    requires s.current in s.th
    ensures var r := SetLocks(s, locks, frames, section);
      && Relocks(s, r) && r == s.(th := r.th)
      && Get(r.th, s.current).locks == locks && Get(r.th, s.current).frames == frames
      && Get(r.th, s.current).section == section
  {
  }

  /** An acquisition succeeds exactly for a thread other than idle, no more urgent than the ceiling, on a
      lock that nobody owns. The thread then owns the lock and runs at exactly its ceiling. */
  lemma AcquireEffect(s: State, l: Lock)
    requires Inv(s)
    ensures var o := Acquire(s, l); var c := s.current;
      && (o == Halt(IdleThread) <==> c == IDLE)
      && (o == Halt(RecursiveLock) <==> c != IDLE && Owned(s, l, c))
      && (o == Halt(CeilingViolation) <==> c != IDLE && !Owned(s, l, c) && ActiveOf(s.th, c) > l.ceiling)
      && (o.Ok? <==> c != IDLE && ActiveOf(s.th, c) <= l.ceiling && forall t :: !Owned(s, l, t))
    ensures Acquire(s, l).Ok? ==>
      var r, c := Acquire(s, l).s, s.current;
      && Relocks(s, r) && r.toHigher == s.toHigher
      && Elems(Get(r.th, c).locks) == Elems(Get(s.th, c).locks) + {l} && Get(r.th, c).frames == Get(s.th, c).frames
      && (forall m, t :: Owned(r, m, t) <==> Owned(s, m, t) || (m == l && t == c))
      && ActiveOf(r.th, c) == l.ceiling
  {
    OwnedIff(s, l);
    hide Inv, Elems, Relocks, InsertAfter, Owned, LockAfter, ActiveOf, SetLocks;
    assert l in s.owner ==> Owned(s, l, s.owner[l]);
    if Acquire(s, l).Ok? { Acquired(s, l); }
  }

  lemma Acquired(s: State, l: Lock)
    requires Inv(s) && Acquire(s, l).Ok?
    ensures var r, c := Acquire(s, l).s, s.current;
      && Relocks(s, r) && r.toHigher == s.toHigher
      && Elems(Get(r.th, c).locks) == Elems(Get(s.th, c).locks) + {l} && Get(r.th, c).frames == Get(s.th, c).frames
      && (forall m, t :: Owned(r, m, t) <==> Owned(s, m, t) || (m == l && t == c))
      && ActiveOf(r.th, c) == l.ceiling
  {
    CurrentKnown(s);
    var c, x, r := s.current, Get(s.th, s.current), Acquire(s, l).s;
    assert Exact(x);
    TopLock(x, l);
    InsertElems(x.locks, l, LockAfter(l));
    hide Inv, Elems, InsertAfter, Exact, LockAfter;
    SetLocksRelocks(s, InsertAfter(x.locks, l, LockAfter(l)), x.frames, x.section);
    forall m, t ensures Owned(r, m, t) <==> Owned(s, m, t) || (m == l && t == c) {
      if t != c { assert Get(r.th, t) == Get(s.th, t); }
    }
  }

  /** A lock that passes the ceiling check is the highest one the thread owns. */
  lemma TopLock(x: Thread, l: Lock)
    requires Exact(x) && Active(x) <= l.ceiling
    ensures InsertAfter(x.locks, l, LockAfter(l))[0] == l && Max(x.base, Max(x.section, l.ceiling)) == l.ceiling
  {
    hide LocksExact, FramesExact;
  }

  /** Somebody waits above the current thread. */
  ghost predicate Overdue(s: State) { exists t :: Waits(s, t) && ActiveOf(s.th, t) > ActiveOf(s.th, s.current) }

  lemma CondRescheduleEffect(s: State)
    requires Inv(s)
    ensures CondReschedule(s) == s.(toHigher := s.toHigher || Overdue(s))
  {
    hide Inv, ActiveOf;
    if s.ready == [] { NobodyWaits(s); } else { HeadWaits(s); }
  }

  /** A release fails exactly on a lock that another thread owns and ignores one that nobody owns. It asks
      for a reschedule exactly when the drop in priority leaves the thread below a ready one. */
  lemma ReleaseEffect(s: State, l: Lock)
    requires Inv(s)
    ensures Release(s, l).Ok? <==> forall t :: Owned(s, l, t) ==> t == s.current
    ensures (forall t :: !Owned(s, l, t)) ==> Release(s, l) == Ok(s)
    ensures Owned(s, l, s.current) ==>
      var r, c := Release(s, l).s, s.current;
      && Relocks(s, r) && Elems(Get(r.th, c).locks) == Elems(Get(s.th, c).locks) - {l}
      && Get(r.th, c).frames == Get(s.th, c).frames
      && (forall m, t :: Owned(r, m, t) <==> Owned(s, m, t) && m != l)
      && (r.toHigher <==> s.toHigher || Overdue(r))
  {
    OwnedIff(s, l);
    hide Inv, Elems, Relocks, Without, CondReschedule, Owned, SetLocks;
    assert l in s.owner ==> Owned(s, l, s.owner[l]);
    if Owned(s, l, s.current) { Released(s, l); }
  }

  lemma Released(s: State, l: Lock)
    requires Inv(s) && Owned(s, l, s.current) && Owns(s.owner, l, s.current)
    ensures var r, c := Release(s, l).s, s.current;
      && Relocks(s, r) && Elems(Get(r.th, c).locks) == Elems(Get(s.th, c).locks) - {l}
      && Get(r.th, c).frames == Get(s.th, c).frames
      && (forall m, t :: Owned(r, m, t) <==> Owned(s, m, t) && m != l)
      && (r.toHigher <==> s.toHigher || Overdue(r))
  {
    CurrentKnown(s);
    var c, x := s.current, Get(s.th, s.current);
    var r0 := SetLocks(s, Without(x.locks, l), x.frames, x.section).(owner := s.owner - {l});
    assert NoDup(x.locks) by { assert Exact(x); }
    WithoutElems(x.locks, l);
    ReleasedInv(s, l);
    OwnedIff(s, l);
    hide Inv, Elems, Without, CondReschedule;
    SetLocksRelocks(s, Without(x.locks, l), x.frames, x.section);
    CondRescheduleEffect(r0);
    assert Overdue(CondReschedule(r0)) <==> Overdue(r0);
    forall m, t ensures Owned(r0, m, t) <==> Owned(s, m, t) && m != l {
      if t != c { assert Get(r0.th, t) == Get(s.th, t); }
    }
  }

  /** Entering a section raises the thread to the higher of its priority and the ceiling. */
  lemma EnterEffect(s: State, ceiling: Prio)
    requires Inv(s) && ceiling >= MIN
    ensures var r, c := EnterSection(s, ceiling), s.current;
      && Relocks(s, r) && r.owner == s.owner && r.toHigher == s.toHigher && Get(r.th, c).locks == Get(s.th, c).locks
      && |Get(r.th, c).frames| == |Get(s.th, c).frames| + 1 && Get(s.th, c).frames <= Get(r.th, c).frames
      && ActiveOf(r.th, c) == Max(ActiveOf(s.th, c), ceiling)
  {
    CurrentKnown(s);
    var x := Get(s.th, s.current);
    assert x.owned == (if x.locks == [] then NONE else x.locks[0].ceiling) by { assert Exact(x); }
    hide Inv;
    SetLocksRelocks(s, x.locks, x.frames + [Frame(ceiling, x.section)], Max(x.section, Max(ceiling, x.base)));
  }

  /** Leaving undoes the innermost section only, and asks for a reschedule like a release. */
  lemma LeaveEffect(s: State)
    requires Inv(s)
    ensures LeaveSection(s).Ok? <==> Get(s.th, s.current).frames != []
    ensures LeaveSection(s).Ok? ==>
      var r, c := LeaveSection(s).s, s.current; var n := |Get(s.th, c).frames| - 1;
      && Relocks(s, r) && r.owner == s.owner && Get(r.th, c).locks == Get(s.th, c).locks
      && Get(r.th, c).frames == Get(s.th, c).frames[..n] && Get(r.th, c).section == Get(s.th, c).frames[n].saved
      && (r.toHigher <==> s.toHigher || Overdue(r))
  {
    if LeaveSection(s).Ok? {
      CurrentKnown(s);
      LeftInv(s);
      hide Inv, CondReschedule;
      var x := Get(s.th, s.current);
      var n := |x.frames| - 1;
      var r0 := SetLocks(s, x.locks, x.frames[..n], x.frames[n].saved);
      SetLocksRelocks(s, x.locks, x.frames[..n], x.frames[n].saved);
      CondRescheduleEffect(r0);
      assert Overdue(CondReschedule(r0)) <==> Overdue(r0);
    }
  }

  // Over all actions

  /** Who is asked to be polled, whether equals may take over, and which actions can switch threads. */
  ghost predicate Accounts(s: State, a: Action, r: State) {
    && (forall i: nat :: i in r.polls <==>
          !a.DoPoll? && (i in s.polls || a == DoIrqResume(i)
                         || (a.DoExec? && s.Pending() && Timers.Due(s.sleep, Irq(i), a.now))))
    && (r.toEqual <==> a.DoYield? || (s.toEqual && !a.DoExec?))
    && (r.current != s.current ==> a.DoBlock? || a == DoSuspend(s.current) || (a.DoExec? && s.Pending()))
  }

  /** A handler is asked to be polled exactly from its resume, or from the reschedule that finds it due, until
      the next poll; only a yield asks for a reschedule among equals; and the processor changes hands only
      by blocking, by suspending oneself and by a pending reschedule. */
  lemma StepAccounts(s: State, a: Action)
    requires Inv(s) && Valid(a) && Step(s, a).Ok?
    ensures Accounts(s, a, Step(s, a).s)
  {
    hide Inv, Resume, Exec, Suspend, BlockCurrent, Start, Acquire, Release, EnterSection, LeaveSection, ToSleep, Awake;
    hide Elems, Timers.Due, TakesOver, Moves, Joins, Overdue;
    match a
    case DoBlock(d) => BlockEffect(s, d);
    case DoSuspend(t) => SuspendEffect(s, t);
    case DoResume(t) => ResumeAccounts(s, t);
    case DoStart(t) => StartAccounts(s, t);
    case DoExec(now) => ExecEffect(s, now);
    case DoIrqSleep(i, at) => IrqSleepEffect(s, i, at, Step(s, a).s);
    case DoIrqResume(i) => IrqResumeEffect(s, i, Step(s, a).s);
    case DoAcquire(l) => AcquireEffect(s, l);
    case DoRelease(l) => ReleaseAccounts(s, l);
    case DoEnter(c) => EnterEffect(s, c);
    case DoLeave => LeaveEffect(s);
    case _ =>
  }

  lemma ResumeAccounts(s: State, t: Tid)
    requires Inv(s)
    ensures var r := Resume(s, t); r.polls == s.polls && r.toEqual == s.toEqual && r.current == s.current
  {
    hide Inv, MakeReady, Resume, Elems, Moves, Joins;
    ResumeEffect(s, t);
    MakeReadyEffect(s, t);
  }

  lemma StartAccounts(s: State, t: Tid)
    requires Inv(s) && Start(s, t).Ok?
    ensures var r := Start(s, t).s; r.polls == s.polls && r.toEqual == s.toEqual && r.current == s.current
  {
    hide Inv, Resume;
    StartedInv(s, t);
    ResumeAccounts(SetState(s, t, Started), t);
  }

  lemma ReleaseAccounts(s: State, l: Lock)
    requires Inv(s) && Release(s, l).Ok?
    ensures var r := Release(s, l).s; r.polls == s.polls && r.toEqual == s.toEqual && r.current == s.current
  {
    hide Inv, Release, Elems, Owned, Overdue;
    ReleaseEffect(s, l);
    if !Owned(s, l, s.current) { assert forall t :: !Owned(s, l, t); }
  }
}
