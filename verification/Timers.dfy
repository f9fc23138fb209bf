/** Timed wake-ups: a reschedule wakes exactly the sleepers that are due, and the alarm is never
    later than the earliest deadline. */
module Timers {
  import opened Wrappers
  import opened Lists
  import opened Kernel
  import opened KernelInvariants
  import CE = CeilingCounterexamples

  /** `who` sleeps with a deadline that has passed. */
  ghost predicate Due(q: seq<Sleeper>, who: Who, now: nat) {
    exists e :: e in Elems(q) && e.who == who && e.at <= now
  }

  lemma DueHead(q: seq<Sleeper>, who: Who, now: nat)
    requires q != []
    ensures Due(q, who, now) <==> (q[0].who == who && q[0].at <= now) || Due(q[1..], who, now)
  {
    if q[0].who == who && q[0].at <= now {
      assert q[0] in Elems(q);
    }
    forall e | e in Elems(q[1..]) ensures e in Elems(q) {
    }
  }

  /** What the wake-up loop leaves behind, whoever the sleepers are. */
  lemma {:induction false} LeavesUndueSuffix(s: State, now: nat)
    ensures var r, k := WakeExpired(s, now), Scan(s.sleep, SleepAfter(now));
            r.sleep == s.sleep[k..] && r.alarm == Earliest(r.sleep)
    decreases |s.sleep|
  {
    if s.sleep == [] || s.sleep[0].at > now {
      assert s.sleep[0..] == s.sleep;
    } else {
      var s1 := Wake(s.(sleep := s.sleep[1..]), s.sleep[0].who);
      assert s1.sleep == s.sleep[1..];
      LeavesUndueSuffix(s1, now);
    }
  }

  /** The loop wakes everyone due if and only if nobody due stands behind somebody undue; a
      deadline changed while its owner is queued can break this. */
  lemma AllDueWokenIff(s: State, now: nat)
    ensures (forall i :: 0 <= i < |WakeExpired(s, now).sleep| ==> WakeExpired(s, now).sleep[i].at > now) <==>
            (forall i, j :: 0 <= i < j < |s.sleep| && s.sleep[j].at <= now ==> s.sleep[i].at <= now)
  {
    hide Scan, WakeExpired;
    LeavesUndueSuffix(s, now);
    UndueIff(s.sleep, Scan(s.sleep, SleepAfter(now)), now);
  }

  /** Behind the first undue entry all are undue exactly when nobody due stands behind somebody undue. */
  lemma UndueIff(q: seq<Sleeper>, k: nat, now: nat)
    requires k <= |q| && (forall i :: 0 <= i < k ==> q[i].at <= now) && (k < |q| ==> q[k].at > now)
    ensures (forall i :: 0 <= i < |q[k..]| ==> q[k..][i].at > now) <==>
            (forall i, j :: 0 <= i < j < |q| && q[j].at <= now ==> q[i].at <= now)
  {
    assert forall j :: k <= j < |q| ==> q[j] == q[k..][j - k];
    if forall i, j :: 0 <= i < j < |q| && q[j].at <= now ==> q[i].at <= now {
      forall i | 0 <= i < |q[k..]| ensures q[k..][i].at > now { assert q[k..][i] == q[k + i]; }
    }
  }

  /** The deadline write with which a handler asks to be woken. It comes before the preemption lock is
      taken, so the handler may stand in the queue. */
  function SetDeadline(q: seq<Sleeper>, i: nat, at: nat): (r: seq<Sleeper>)
    ensures |r| == |q| && forall j :: 0 <= j < |q| ==> r[j] == if q[j].who == Irq(i) then Sleeper(Irq(i), at) else q[j]
  {
    if q == [] then [] else [if q[0].who == Irq(i) then Sleeper(Irq(i), at) else q[0]] + SetDeadline(q[1..], i, at)
  }

  predicate Queued(q: seq<Sleeper>, i: nat) { exists j :: 0 <= j < |q| && q[j].who == Irq(i) }

  /** The deadline `at` lies between those of the neighbours of handler `i` in the queue. */
  predicate Fits(q: seq<Sleeper>, i: nat, at: nat) {
    forall a, b :: 0 <= a < b < |q| ==> (q[a].who == Irq(i) ==> at <= q[b].at) && (q[b].who == Irq(i) ==> q[a].at <= at)
  }

  /** The alarm goes off in time for handler `i`, if it is queued, under the deadline `at`. */
  predicate Reached(q: seq<Sleeper>, alarm: Option<nat>, i: nat, at: nat) {
    Queued(q, i) ==> alarm.Some? && alarm.value <= at
  }

  /** The alarm goes off in time for everyone queued. */
  ghost predicate InTime(q: seq<Sleeper>, alarm: Option<nat>) {
    forall j :: 0 <= j < |q| ==> alarm.Some? && alarm.value <= q[j].at
  }

  /** The write keeps the deadline order exactly when the new deadline fits where the handler stands. */
  lemma DeadlineWriteKeepsOrderIff(q: seq<Sleeper>, i: nat, at: nat)
    requires Ascending(q) && Distinct(q)
    ensures Ascending(SetDeadline(q, i, at)) <==> Fits(q, i, at)
  {
    hide SetDeadline;
    var r := SetDeadline(q, i, at);
    if Ascending(r) {
      forall a, b | 0 <= a < b < |q|
        ensures (q[a].who == Irq(i) ==> at <= q[b].at) && (q[b].who == Irq(i) ==> q[a].at <= at)
      { assert r[a].at <= r[b].at; }
    }
  }

  /** The write keeps the alarm in time exactly when the handler is not queued or the alarm is no later
      than the new deadline, whatever the order of the queue. */
  lemma DeadlineWriteKeepsAlarmIff(q: seq<Sleeper>, i: nat, at: nat, alarm: Option<nat>)
    requires InTime(q, alarm)
    ensures InTime(SetDeadline(q, i, at), alarm) <==> Reached(q, alarm, i, at)
  {
    hide SetDeadline;
    var r := SetDeadline(q, i, at);
    if InTime(r, alarm) && Queued(q, i) {
      var j :| 0 <= j < |q| && q[j].who == Irq(i);
      assert r[j].at == at;
    }
  }

  lemma InTimeIff(q: seq<Sleeper>, alarm: Option<nat>)
    requires Ascending(q)
    ensures InTime(q, alarm) <==> NeverLate(q, alarm)
  {
    if NeverLate(q, alarm) {
      forall j | 0 <= j < |q| ensures alarm.Some? && alarm.value <= q[j].at { assert q[0].at <= q[j].at; }
    }
  }

  /** The write keeps whom the queue holds. */
  lemma DeadlineWriteKeepsSleepers(q: seq<Sleeper>, i: nat, at: nat)
    ensures Distinct(q) ==> Distinct(SetDeadline(q, i, at))
    ensures forall e :: e in Elems(SetDeadline(q, i, at)) ==> if e.who == Irq(i) then e.at == at else e in Elems(q)
  {
    hide SetDeadline, Elems;
    var r := SetDeadline(q, i, at);
    assert forall j :: 0 <= j < |q| ==> r[j].who == q[j].who;
    forall e | e in Elems(r) ensures if e.who == Irq(i) then e.at == at else e in Elems(q) {
      var j := ElemsAt(r, e);
      AtElems(q, j);
    }
  }

  /** Both together: what timers rest on survives the write exactly when the deadline fits and the alarm
      reaches it. */
  lemma DeadlineWriteKeepsIff(q: seq<Sleeper>, i: nat, at: nat, alarm: Option<nat>, blocked: set<Tid>)
    requires Sleeping(q, blocked) && NeverLate(q, alarm)
    ensures var r := SetDeadline(q, i, at);
            Sleeping(r, blocked) && NeverLate(r, alarm) <==> Fits(q, i, at) && Reached(q, alarm, i, at)
  {
    hide SetDeadline, Elems, Fits, Reached, Ascending, Distinct, NeverLate, InTime;
    var r := SetDeadline(q, i, at);
    DeadlineWriteKeepsSleepers(q, i, at);
    DeadlineWriteKeepsOrderIff(q, i, at);
    InTimeIff(q, alarm);
    DeadlineWriteKeepsAlarmIff(q, i, at, alarm);
    if Ascending(r) { InTimeIff(r, alarm); }
  }

  /** The low thread is blocked until 20 behind a handler that sleeps until 10. */
  function Sleepers(): State {
    CE.LowRuns(4).(
      th := map[IDLE := NOBODY.(state := Running), CE.LOW := CE.Fresh(3).(state := Blocked), CE.HIGH := CE.Fresh(4)],
      blocked := [CE.LOW], sleep := [Sleeper(Irq(0), 10), Sleeper(Thr(CE.LOW), 20)], current := IDLE, alarm := Some(10))
  }

  /** The kernel after handler `i` has gone to sleep as the only sleeper. */
  function Asleep(k: State, i: nat, at: nat): State { k.(sleep := [Sleeper(Irq(i), at)], alarm := Some(at)) }

  lemma FallsAsleep(k: State, i: nat, at: nat)
    requires k.sleep == []
    ensures Step(k, DoIrqSleep(i, at)) == Ok(Asleep(k, i, at))
  {
    hide Resume, Exec, Suspend, BlockCurrent, Acquire, Release, EnterSection, LeaveSection, Start, InsertAfter;
    CE.InsertAlone(Sleeper(Irq(i), at), SleepAfter(at));
  }

  /** The handler has gone to sleep; the low thread still runs. */
  function HandlerSleeps(): State { Asleep(CE.LowRuns(4), 0, 10) }

  lemma LowSleeps()
    ensures BlockCurrent(HandlerSleeps(), Some(20)) == Ok(Sleepers())
  {
    hide LeaveCpu, BlockedAfter;
    var s := HandlerSleeps();
    CE.Idles(s);
    var s1 := LeaveCpu(s);
    CE.InsertAlone(CE.LOW, BlockedAfter(s1.th, CE.LOW));
    assert ToSleep(s1, Thr(CE.LOW), 20).sleep == Sleepers().sleep;
    assert BlockCurrent(s, Some(20)).s.th == Sleepers().th;
  }

  lemma LowSleepsStep()
    ensures Step(HandlerSleeps(), DoBlock(Some(20))) == Ok(Sleepers())
  {
    hide BlockCurrent, Sleepers, HandlerSleeps;
    LowSleeps();
  }

  lemma ReachSleepers()
    ensures Run(CE.Boot(3, 4), [DoStart(CE.LOW), DoExec(0), DoIrqSleep(0, 10), DoBlock(Some(20))]) == Ok(Sleepers())
  {
    hide Run, Step;
    FallsAsleep(CE.LowRuns(4), 0, 10);
    LowSleepsStep();
    hide HandlerSleeps, Sleepers;
    var a := [DoIrqSleep(0, 10)] + ([DoBlock(Some(20))] + []);
    assert [DoStart(CE.LOW), DoExec(0), DoIrqSleep(0, 10), DoBlock(Some(20))] == [DoStart(CE.LOW), DoExec(0)] + a;
    CE.ReachLowRuns(4, a);
    CE.RunOne(CE.LowRuns(4), DoIrqSleep(0, 10), [DoBlock(Some(20))] + []);
    CE.RunOne(HandlerSleeps(), DoBlock(Some(20)), []);
    CE.RunNone(Sleepers());
  }

  /** After this run the handler's deadline moves from 10 to 100, and a thread due at 20 sleeps on at
      time 50 with the alarm set for 100. */
  lemma MovedDeadlineHidesThread()
    ensures Init(CE.Boot(3, 4))
    ensures var r := Run(CE.Boot(3, 4), [DoStart(CE.LOW), DoExec(0), DoIrqSleep(0, 10), DoBlock(Some(20))]);
      && r.Ok?
      && var s := r.s.(sleep := SetDeadline(r.s.sleep, 0, 100));
      Due(s.sleep, Thr(CE.LOW), 50) && WakeExpired(s, 50) == s.(alarm := Some(100))
  {
    CE.BootIsInit(3, 4);
    ReachSleepers();
    hide Run;
    var q := SetDeadline(Sleepers().sleep, 0, 100);
    assert q == [Sleeper(Irq(0), 100), Sleeper(Thr(CE.LOW), 20)];
    assert q[1] in Elems(q[1..]);
    assert q[1] in Elems(q);
  }

  /** After the same run the deadline moves from 10 to 5, which fits; the alarm at 10 is then late. */
  lemma EarlierDeadlineOutrunsAlarm()
    ensures Init(CE.Boot(3, 4))
    ensures var r := Run(CE.Boot(3, 4), [DoStart(CE.LOW), DoExec(0), DoIrqSleep(0, 10), DoBlock(Some(20))]);
      && r.Ok? && Fits(r.s.sleep, 0, 5)
      && var q := SetDeadline(r.s.sleep, 0, 5);
      && q == [Sleeper(Irq(0), 5), Sleeper(Thr(CE.LOW), 20)] && Ascending(q)
      && r.s.alarm == Some(10) && !NeverLate(q, r.s.alarm)
  {
    CE.BootIsInit(3, 4);
    ReachSleepers();
    hide Run;
    assert SetDeadline(Sleepers().sleep, 0, 5) == [Sleeper(Irq(0), 5), Sleeper(Thr(CE.LOW), 20)];
  }

  /** With the deadline order that every run keeps, precisely the due sleepers are woken: their
      threads become ready, their handlers are polled, and nothing else changes state. */
  lemma {:induction false} WakesExactlyTheDue(s: State, now: nat)
    requires Inv(s)
    ensures var r := WakeExpired(s, now);
            && (forall t :: Get(r.th, t).state == if Due(s.sleep, Thr(t), now) then Ready else Get(s.th, t).state)
            && (forall i: nat :: i in r.polls <==> i in s.polls || Due(s.sleep, Irq(i), now))
            && (forall e :: e in Elems(r.sleep) <==> e in Elems(s.sleep) && e.at > now)
            && r.alarm == Earliest(r.sleep)
    decreases |s.sleep|
  {
    hide Located, Ordered, NoDup, AllExact, Owners, Wake;
    if s.sleep == [] || s.sleep[0].at > now {
      forall e | e in Elems(s.sleep) ensures e.at > now {
        var i := ElemsAt(s.sleep, e);
      }
    } else {
      var e, s0 := s.sleep[0], s.(sleep := s.sleep[1..]);
      var s1 := Wake(s0, e.who);
      WakeInv(s);
      SleepTail(s);
      WokenState(s0, e.who);
      hide Inv, WakeExpired;
      WakesExactlyTheDue(s1, now);
      assert !Due(s1.sleep, e.who, now);
      forall who ensures Due(s.sleep, who, now) <==> who == e.who || Due(s1.sleep, who, now) {
        DueHead(s.sleep, who, now);
      }
      assert WakeExpired(s, now) == WakeExpired(s1, now) by { WakeUnfold(s, now); }
    }
  }

  lemma WakeUnfold(s: State, now: nat)
    requires s.sleep != [] && s.sleep[0].at <= now
    ensures WakeExpired(s, now) == WakeExpired(Wake(s.(sleep := s.sleep[1..]), s.sleep[0].who), now)
  {
  }

  lemma WokenState(s: State, who: Who)
    requires who.Thr? ==> who.t in s.th && s.th[who.t].state == Blocked
    ensures var r := Wake(s, who);
            && (forall t :: Get(r.th, t).state == if who == Thr(t) then Ready else Get(s.th, t).state)
            && r.polls == (if who.Irq? then s.polls + {who.i} else s.polls)
  {
  }

  /** In every run the alarm is at or before every queued deadline. */
  lemma AlarmNeverLate(s: State, run: seq<Action>)
    requires Init(s) && AllValid(run) && Run(s, run).Ok?
    ensures var r := Run(s, run).s;
            forall i :: 0 <= i < |r.sleep| ==> r.alarm.Some? && r.alarm.value <= r.sleep[i].at
  {
    InitInv(s);
    RunInv(s, run);
    hide Run, Init;
  }

  // What actions do to the entries of handlers

  lemma {:induction false} SuffixElems<T>(q: seq<T>, k: nat)
    requires k <= |q|
    ensures Elems(q[k..]) <= Elems(q)
  {
    if k == 0 {
      assert q[0..] == q;
    } else {
      SuffixElems(q[1..], k - 1);
      assert q[k..] == q[1..][k - 1..];
    }
  }

  lemma ToReadyKeeps(k: State, u: Tid)
    ensures ToReady(k, u).blocked == k.blocked && ToReady(k, u).sleep == k.sleep
    ensures forall t :: t != u ==> Get(ToReady(k, u).th, t) == Get(k.th, t)
    ensures u in k.th ==> Get(ToReady(k, u).th, u).state == Ready
  {
    hide InsertAfter, ReadyAfter;
  }

  lemma PreemptKeeps(k: State, equal: bool)
    ensures Preempt(k, equal).blocked == k.blocked && Preempt(k, equal).sleep == k.sleep
  {
    hide ToReady, ActiveOf;
    var p: int := ActiveOf(k.th, k.current);
    var (s1, next) := PopAbove(k, if equal then p - 1 else p, k.current);
    ToReadyKeeps(Switch(s1, next), k.current);
  }

  lemma SuspendKeeps(k: State, u: Tid)
    requires Inv(k) && Suspend(k, u).Ok?
    ensures Suspend(k, u).s.blocked == k.blocked && Suspend(k, u).s.sleep == k.sleep
  {
    hide Elems, NoDup, LeaveCpu;
    if Get(k.th, u).state == Running { LeaveCpuInv(k); }
  }

  lemma LockingKeeps(k: State, a: Action)
    requires Step(k, a).Ok? && (a.DoAcquire? || a.DoRelease? || a.DoEnter? || a.DoLeave?)
    ensures Step(k, a).s.blocked == k.blocked && Step(k, a).s.sleep == k.sleep
  {
    hide InsertAfter, Without;
  }

  lemma ResumeSleep(k: State, t: Tid)
    requires Distinct(k.sleep)
    ensures forall e :: e in Elems(Resume(k, t).sleep) ==> e in Elems(k.sleep)
  {
    hide ToReady, Elems, Distinct, LocksCeiling, ActiveOf, Awake, Without;
    AwakeElems(k.sleep, Thr(t));
    ToReadyKeeps(k.(sleep := Awake(k.sleep, Thr(t)), blocked := Without(k.blocked, t)), t);
    ToReadyKeeps(k.(suspended := Without(k.suspended, t)), t);
    ToReadyKeeps(k, t);
  }

  lemma ExecSleep(k: State, now: nat)
    ensures forall e :: e in Elems(Exec(k, now).sleep) ==> e in Elems(k.sleep)
  {
    hide WakeExpired, Elems, Preempt;
    var s0 := k.(toEqual := false, toHigher := false);
    LeavesUndueSuffix(s0, now);
    SuffixElems(k.sleep, Scan(k.sleep, SleepAfter(now)));
    var s1 := WakeExpired(s0, now);
    PreemptKeeps(s1, k.toEqual);
  }

  lemma BlockSleep(k: State, d: Option<nat>)
    requires Inv(k) && BlockCurrent(k, d).Ok?
    ensures forall e :: e in Elems(BlockCurrent(k, d).s.sleep) && e.who.Irq? ==> e in Elems(k.sleep)
  {
    hide Elems, NoDup, LeaveCpu, InsertAfter, BlockedAfter, SleepAfter;
    LeaveCpuInv(k);
    if d.Some? { InsertElems(k.sleep, Sleeper(Thr(k.current), d.value), SleepAfter(d.value)); }
  }

  lemma IrqSleepEntries(k: State, i: nat, at: nat)
    requires Distinct(k.sleep)
    ensures forall e :: e in Elems(Step(k, DoIrqSleep(i, at)).s.sleep) ==>
              if e.who == Irq(i) then e.at == at else e in Elems(k.sleep)
    ensures forall e :: e in Elems(Step(k, DoIrqResume(i)).s.sleep) ==> e in Elems(k.sleep)
  {
    hide Elems, InsertAfter, SleepAfter, Awake;
    AwakeElems(k.sleep, Irq(i));
    InsertElems(Awake(k.sleep, Irq(i)), Sleeper(Irq(i), at), SleepAfter(at));
  }

  /** Handlers are queued as they were, except under a request of their own. */
  ghost predicate Entries(q: seq<Sleeper>, a: Action, r: seq<Sleeper>) {
    forall e :: e in Elems(r) && e.who.Irq? ==>
      if a.DoIrqSleep? && e.who.i == a.i then e.at == a.at else e in Elems(q)
  }

  lemma BlockEntries(k: State, d: Option<nat>)
    requires Inv(k) && Step(k, DoBlock(d)).Ok?
    ensures Entries(k.sleep, DoBlock(d), Step(k, DoBlock(d)).s.sleep)
  {
    hide Inv, Elems, BlockCurrent;
    BlockSleep(k, d);
  }

  lemma SuspendEntries(k: State, t: Tid)
    requires Inv(k) && Step(k, DoSuspend(t)).Ok?
    ensures Entries(k.sleep, DoSuspend(t), Step(k, DoSuspend(t)).s.sleep)
  {
    hide Inv, Elems, Suspend;
    SuspendKeeps(k, t);
  }

  lemma ResumeEntries(k: State, t: Tid)
    requires Distinct(k.sleep)
    ensures Entries(k.sleep, DoResume(t), Step(k, DoResume(t)).s.sleep)
    ensures Step(k, DoStart(t)).Ok? ==> Entries(k.sleep, DoStart(t), Step(k, DoStart(t)).s.sleep)
  {
    hide Distinct, Elems, Resume;
    ResumeSleep(k, t);
    ResumeSleep(SetState(k, t, Started), t);
  }

  lemma ExecEntries(k: State, now: nat)
    ensures Entries(k.sleep, DoExec(now), Step(k, DoExec(now)).s.sleep)
  {
    hide Elems, Exec;
    ExecSleep(k, now);
  }

  lemma OtherEntries(k: State, a: Action)
    requires Distinct(k.sleep) && Step(k, a).Ok?
    requires !a.DoBlock? && !a.DoSuspend? && !a.DoResume? && !a.DoStart? && !a.DoExec?
    ensures Entries(k.sleep, a, Step(k, a).s.sleep)
  {
    hide Distinct, Elems, Acquire, Release, EnterSection, LeaveSection, ToSleep, Awake;
    if a.DoIrqSleep? { IrqSleepEntries(k, a.i, a.at); }
    else if a.DoIrqResume? { IrqSleepEntries(k, a.i, 0); }
    else if a.DoAcquire? || a.DoRelease? || a.DoEnter? || a.DoLeave? { LockingKeeps(k, a); }
  }

  /** Only a handler's own request gives it a deadline in the queue. */
  lemma HandlerEntries(k: State, a: Action)
    requires Inv(k) && Step(k, a).Ok?
    ensures Entries(k.sleep, a, Step(k, a).s.sleep)
  {
    assert Distinct(k.sleep);
    hide Inv, Distinct, Entries, Step;
    match a
    case DoBlock(d) => BlockEntries(k, d);
    case DoSuspend(t) => SuspendEntries(k, t);
    case DoResume(t) => ResumeEntries(k, t);
    case DoStart(t) => ResumeEntries(k, t);
    case DoExec(now) => ExecEntries(k, now);
    case _ => OtherEntries(k, a);
  }

  /** The kernel invariant through a deadline write. */
  lemma DeadlineWriteInvIff(k: State, i: nat, at: nat)
    requires Inv(k)
    ensures Inv(k.(sleep := SetDeadline(k.sleep, i, at))) <==> Fits(k.sleep, i, at) && Reached(k.sleep, k.alarm, i, at)
  {
    DeadlineWriteKeepsIff(k.sleep, i, at, k.alarm, Elems(k.blocked));
    OwnersFrame(k, k.(sleep := SetDeadline(k.sleep, i, at)));
    hide Located, ReadyOrdered, BlockedOrdered, NoDup, Sleeping, NeverLate, AllExact, Owners, Elems, Fits, Reached;
  }
}
