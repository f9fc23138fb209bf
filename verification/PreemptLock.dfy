/** The preemption lock over the kernel: one core, a thread at the bottom and nested interrupt
    handlers above it, the lock word, and the requests deferred while the word is taken. */
module PreemptLock {
  import opened Wrappers
  import opened Lists
  import opened Kernel
  import KernelInvariants
  import PQ = PendingQueues
  import AQ = AtomicQueue
  import Timers

  datatype Holder = Free | ByThread(t: Tid) | ByIrq(i: nat)

  /** Numbers of resumes and of sleeps. */
  datatype Marks = Marks(resumes: nat, sleeps: nat)

  function Count(m: Marks, w: PQ.Which): nat { if w == PQ.Resumes then m.resumes else m.sleeps }

  /** Where a context is in the outermost release: draining deferred resumes, draining deferred
      sleeps, or about to clear the word. `mark` counts what was deferred before the release began,
      `resumed` and `seen` what was deferred when the drain of a queue found it empty. */
  datatype Phase =
    | Working | DrainResumes(mark: Marks) | DrainSleeps(mark: Marks, resumed: nat) | Clearing(mark: Marks, seen: Marks)

  /** A context and the words its nested acquisitions have saved, innermost last. */
  datatype Ctx = Ctx(irq: Option<nat>, saves: seq<Holder>, phase: Phase)

  /** `q` holds both pending queues and `deadline` the cells with the deadlines of handlers; `due` holds
      the threads that cleared the word and have yet to look for a pending reschedule. */
  datatype Sys = Sys(k: State, word: Holder, ctx: seq<Ctx>, q: PQ.Pending, deadline: map<nat, nat>, due: set<Tid>)

  datatype Act =
    | Enter(i: nat) | Exit | Take | Drop | Drain | Clear | Check
    | Op(a: Action) | Defer(w: Who) | Write(i: nat, at: nat) | DeferSleep(i: nat)

  /** The kernel halts, a pending item is refused or missing, or a loop over a broken queue spins. */
  datatype Why = KernelHalt | ItemAlreadyInQueue | ItemNotInQueue | Spins

  datatype Result = Fine(s: Sys) | Stop(why: Why)

  /** Everything put in a pending queue, and everything taken from it. */
  function Deferred(s: Sys, w: PQ.Which): seq<AQ.Ref> { PQ.EndsOf(s.q, w).pushed }

  function Drained(s: Sys, w: PQ.Which): seq<AQ.Ref> { PQ.EndsOf(s.q, w).popped }

  function Owner(k: State, c: Ctx): Holder { if c.irq.None? then ByThread(k.current) else ByIrq(c.irq.value) }

  function Top(s: Sys): Ctx { if s.ctx == [] then Ctx(None, [], Working) else s.ctx[|s.ctx| - 1] }

  function SetTop(s: Sys, c: Ctx): Sys { if s.ctx == [] then s else s.(ctx := s.ctx[|s.ctx| - 1 := c]) }

  function Pop<T>(q: seq<T>): seq<T> { if q == [] then [] else q[..|q| - 1] }

  predicate Touches(a: Action) {
    a.DoBlock? || a.DoSuspend? || a.DoResume? || a.DoStart? || a.DoExec? || a.DoIrqSleep? || a.DoIrqResume?
  }

  /** Whether the top context may take the word: threads always swap it in, interrupt handlers only
      take a free word or their own. */
  predicate MayTake(s: Sys) {
    Top(s).irq.None? || s.word == Free || s.word == Owner(s.k, Top(s))
  }

  /** The closure discipline of `with` and `try_with`: scheduler operations run between a take and
      its release, blocking ones in interrupt context, and a handler exits with nothing held. Only a
      handler that failed to take the word defers. A handler's deadline is written before the attempt to
      take the word. */
  predicate Can(s: Sys, a: Act) {
    var c := Top(s);
    var busy := c.phase != Working || (c.irq.None? && s.k.current in s.due);
    match a
    case Enter(i) => forall j :: 0 <= j < |s.ctx| ==> s.ctx[j].irq != Some(i)
    case Exit => !busy && c.irq.Some? && c.saves == []
    case Take => !busy && MayTake(s)
    case Drop => !busy && c.saves != []
    case Drain => c.phase.DrainResumes? || c.phase.DrainSleeps?
    case Clear => c.phase.Clearing?
    case Check => c.irq.None? && s.k.current in s.due && c.saves == []
    case Op(a) =>
      && !busy && Valid(a)
      && (Touches(a) ==> c.saves != [] && (c.irq.Some? || a.DoResume? || a.DoStart?))
      && (!Touches(a) && !a.DoYield? && !a.DoTick? && !a.DoPoll? ==> c.irq.None?)
    case Defer(_) => !busy && !MayTake(s)
    case Write(_, _) => !busy && c.irq.Some?
    case DeferSleep(i) => !busy && !MayTake(s) && i in s.deadline
  }

  /** A request to sleep that gets the word writes the deadline cell on its way to the sleep queue. */
  function Apply(s: Sys, a: Action): Result {
    match Step(s.k, a)
    case Ok(k) => Fine(s.(k := k, deadline := if a.DoIrqSleep? then s.deadline[a.i := a.at] else s.deadline))
    case Halt(_) => Stop(KernelHalt)
  }

  function ResumeNow(w: Who): Action { if w.Thr? then DoResume(w.t) else DoIrqResume(w.i) }

  function SleepNow(s: Sys, w: Who): Action {
    if w.Irq? && w.i in s.deadline then DoIrqSleep(w.i, s.deadline[w.i]) else DoPoll
  }

  /** The kernel action for a drained item. */
  function ActionFor(s: Sys, which: PQ.Which, w: Who): Action {
    if which == PQ.Resumes then ResumeNow(w) else SleepNow(s, w)
  }

  function DeferOn(s: Sys, which: PQ.Which, w: Who): Result {
    match PQ.Push(s.q, which, AQ.Link(w))
    case Done(q, _) => Fine(s.(q := q))
    case Refused => Stop(ItemAlreadyInQueue)
    case Missing => Stop(ItemNotInQueue)
    case Unfinished => Stop(Spins)
  }

  /** The queue that a context is draining. */
  function Source(p: Phase): PQ.Which { if p.DrainResumes? then PQ.Resumes else PQ.Sleeps }

  /** The phase after the drain of a queue has found it empty. */
  function Onward(s: Sys, p: Phase): Phase {
    match p
    case DrainResumes(mark) => DrainSleeps(mark, |Deferred(s, PQ.Resumes)|)
    case DrainSleeps(mark, seen) => Clearing(mark, Marks(seen, |Deferred(s, PQ.Sleeps)|))
    case _ => p
  }

  function DrainOne(s: Sys): Result {
    var c, p := Top(s), Top(s).phase;
    if !p.DrainResumes? && !p.DrainSleeps? then Fine(s) else
    match PQ.Pop(s.q, Source(p))
    case Done(q, item) =>
      if item == None then Fine(SetTop(s.(q := q), c.(phase := Onward(s, p))))
      else if item.value.Sentinel? then Stop(ItemNotInQueue)
      else Apply(s.(q := q), ActionFor(s, Source(p), item.value.w))
    case Refused => Stop(ItemAlreadyInQueue)
    case Missing => Stop(ItemNotInQueue)
    case Unfinished => Stop(Spins)
  }

  /** The write goes to the cell that a queued entry refers to. */
  function Wrote(s: Sys, i: nat, at: nat): Sys {
    s.(k := s.k.(sleep := Timers.SetDeadline(s.k.sleep, i, at)), deadline := s.deadline[i := at])
  }

  function Entered(s: Sys, i: nat): Sys { s.(ctx := s.ctx + [Ctx(Some(i), [], Working)]) }

  function Cleared(s: Sys): Sys {
    var c := Top(s);
    SetTop(s, c.(saves := Pop(c.saves), phase := Working))
    .(word := Free, due := if c.irq.None? then s.due + {s.k.current} else s.due)
  }

  /** A thread that finds a reschedule pending after its release yields, also to equals. */
  function Checked(s: Sys): Sys {
    s.(due := s.due - {s.k.current},
       k := if s.k.toEqual || s.k.toHigher then s.k.(toEqual := true, toHigher := true) else s.k)
  }

  function AllDeferred(s: Sys): Marks { Marks(|Deferred(s, PQ.Resumes)|, |Deferred(s, PQ.Sleeps)|) }

  function Next(s: Sys, a: Act): Result {
    var c := Top(s);
    match a
    case Enter(i) => Fine(Entered(s, i))
    case Exit => Fine(s.(ctx := Pop(s.ctx)))
    case Take => Fine(SetTop(s, c.(saves := c.saves + [s.word])).(word := Owner(s.k, c)))
    case Drop =>
      if c.saves == [] || c.saves[|c.saves| - 1] != Free then Fine(SetTop(s, c.(saves := Pop(c.saves))))
      else Fine(SetTop(s, c.(phase := DrainResumes(AllDeferred(s)))))
    case Drain => DrainOne(s)
    case Clear => Fine(Cleared(s))
    case Check => Fine(Checked(s))
    case Op(a) => Apply(s, a)
    case Defer(w) => DeferOn(s, PQ.Resumes, w)
    case Write(i, at) => Fine(Wrote(s, i, at))
    case DeferSleep(i) => DeferOn(s, PQ.Sleeps, Irq(i))
  }

  // Invariant

  /** A thread at the bottom and distinct interrupt handlers above it. */
  ghost predicate Nested(ctx: seq<Ctx>) {
    && ctx != [] && ctx[0].irq.None?
    && (forall j :: 0 < j < |ctx| ==> ctx[j].irq.Some?)
    && (forall i, j :: 0 <= i < j < |ctx| ==> ctx[i].irq != ctx[j].irq)
  }

  /** The word names exactly the context that has saved words, and only the outermost save is free. */
  ghost predicate Matches(word: Holder, me: Holder, c: Ctx) {
    && (c.saves != [] <==> word == me)
    && (c.saves != [] ==> c.saves[0] == Free && forall i :: 0 < i < |c.saves| ==> c.saves[i] == me)
    && (c.phase != Working ==> |c.saves| == 1)
  }

  ghost predicate Exclusive(s: Sys) {
    && Nested(s.ctx)
    && (forall j :: 0 <= j < |s.ctx| ==> Matches(s.word, Owner(s.k, s.ctx[j]), s.ctx[j]))
    && (s.word == Free || exists j :: 0 <= j < |s.ctx| && s.ctx[j].saves != [])
  }

  ghost predicate Counted(p: Phase, q: PQ.Pending) {
    match p
    case Working => true
    case DrainResumes(mark) => mark.resumes <= |q.resumes.pushed| && mark.sleeps <= |q.sleeps.pushed|
    case DrainSleeps(mark, seen) => mark.resumes <= seen == |q.resumes.popped| && mark.sleeps <= |q.sleeps.pushed|
    case Clearing(mark, seen) =>
      mark.resumes <= seen.resumes == |q.resumes.popped| && mark.sleeps <= seen.sleeps == |q.sleeps.popped|
  }

  /** Only links are pushed, and only those of handlers with a deadline on the sleep queue. */
  ghost predicate Typed(q: PQ.Pending, deadline: map<nat, nat>) {
    && (forall i :: 0 <= i < |q.resumes.pushed| ==> q.resumes.pushed[i].Link?)
    && (forall i :: 0 <= i < |q.sleeps.pushed| ==>
          q.sleeps.pushed[i].Link? && q.sleeps.pushed[i].w.Irq? && q.sleeps.pushed[i].w.i in deadline)
  }

  /** A queued handler stands in the sleep queue under the deadline in its cell. */
  ghost predicate Cells(sleep: seq<Sleeper>, deadline: map<nat, nat>) {
    forall e :: e in Elems(sleep) && e.who.Irq? ==> e.who.i in deadline && deadline[e.who.i] == e.at
  }

  ghost predicate Conserved(s: Sys) {
    && PQ.Good(s.q) && Typed(s.q, s.deadline)
    && forall j :: 0 <= j < |s.ctx| ==> Counted(s.ctx[j].phase, s.q)
  }

  ghost predicate Inv(s: Sys) {
    Exclusive(s) && Conserved(s) && Cells(s.k.sleep, s.deadline) && KernelInvariants.Inv(s.k)
  }

  /** The context on top holds the word whenever it has saved words, and then no other context does. */
  lemma OnlyHolder(s: Sys, i: nat, j: nat)
    requires Exclusive(s) && i < |s.ctx| && j < |s.ctx| && i != j && s.ctx[i].saves != []
    ensures s.word == Owner(s.k, s.ctx[i]) && s.ctx[j].saves == [] && s.ctx[j].phase == Working
  {
    assert Matches(s.word, Owner(s.k, s.ctx[i]), s.ctx[i]);
    assert Matches(s.word, Owner(s.k, s.ctx[j]), s.ctx[j]);
  }

  // What each kernel action leaves alone

  ghost predicate SameLists(k: State, r: State) {
    && r.ready == k.ready && r.blocked == k.blocked && r.suspended == k.suspended
    && r.sleep == k.sleep && r.alarm == k.alarm && r.current == k.current
    && forall t :: Get(r.th, t).state == Get(k.th, t).state
  }

  lemma UntouchedLists(k: State, a: Action)
    requires !Touches(a) && Step(k, a).Ok? && k.current in k.th
    ensures SameLists(k, Step(k, a).s)
  {
    hide InsertAfter, Without;
  }

  lemma ResumeKeepsCurrent(k: State, t: Tid)
    ensures Resume(k, t).current == k.current
  {
    hide InsertAfter, Without, Awake, ReadyAfter, ActiveOf, LocksCeiling;
    match Get(k.th, t).state
    case Blocked =>
    case Suspended =>
    case Started =>
    case _ =>
  }

  /** What a thread may do while it holds the word, and what a drain does, never switches threads. */
  lemma KeepsCurrent(k: State, a: Action)
    requires Step(k, a).Ok? && (a.DoResume? || a.DoStart? || a.DoIrqSleep? || a.DoIrqResume? || a.DoPoll?)
    ensures Step(k, a).s.current == k.current
  {
    hide InsertAfter, Resume, Awake;
    if a.DoResume? { ResumeKeepsCurrent(k, a.t); }
    if a.DoStart? { ResumeKeepsCurrent(SetState(k, a.t, Started), a.t); }
  }

  // Every step keeps the invariant

  lemma ApplyInv(s: Sys, a: Action)
    requires Inv(s) && Valid(a) && Apply(s, a).Fine?
    requires Step(s.k, a).s.current == s.k.current || s.word.ByIrq?
    ensures Inv(Apply(s, a).s)
  {
    hide Step, KernelInvariants.Inv, PQ.Good, Counted;
    KernelInvariants.StepInv(s.k, a);
    Timers.HandlerEntries(s.k, a);
    var r := Apply(s, a).s;
    forall j | 0 <= j < |s.ctx|
      ensures Matches(r.word, Owner(r.k, r.ctx[j]), r.ctx[j])
    { assert Matches(s.word, Owner(s.k, s.ctx[j]), s.ctx[j]); }
  }

  lemma SetTopAt(s: Sys, c: Ctx)
    requires s.ctx != []
    ensures forall j :: 0 <= j < |s.ctx| - 1 ==> SetTop(s, c).ctx[j] == s.ctx[j]
    ensures |SetTop(s, c).ctx| == |s.ctx| && SetTop(s, c).ctx[|s.ctx| - 1] == c
    ensures c.irq == Top(s).irq && Nested(s.ctx) ==> Nested(SetTop(s, c).ctx)
  {
  }

  /** A change of the top context and the word. */
  lemma TopExclusive(s: Sys, c: Ctx, word: Holder)
    requires Exclusive(s) && c.irq == Top(s).irq && Matches(word, Owner(s.k, c), c)
    requires word == s.word || ({word, s.word} <= {Free, Owner(s.k, c)})
    ensures Exclusive(SetTop(s, c).(word := word))
  {
    var r, n := SetTop(s, c).(word := word), |s.ctx| - 1;
    SetTopAt(s, c);
    forall j | 0 <= j < n
      ensures Matches(word, Owner(s.k, s.ctx[j]), s.ctx[j])
    {
      assert Matches(s.word, Owner(s.k, s.ctx[j]), s.ctx[j]);
      assert s.ctx[j].irq != c.irq;
    }
    if word != Free {
      if word == Owner(s.k, c) { assert r.ctx[n].saves != []; }
    }
  }

  lemma TopIs(s: Sys)
    requires Inv(s)
    ensures s.ctx != [] && Top(s) == s.ctx[|s.ctx| - 1]
    ensures Matches(s.word, Owner(s.k, Top(s)), Top(s)) && Counted(Top(s).phase, s.q)
  {
  }

  /** No handler that is not running holds the word. */
  lemma NotHolding(s: Sys, i: nat)
    requires Exclusive(s) && forall j :: 0 <= j < |s.ctx| ==> s.ctx[j].irq != Some(i)
    ensures s.word != ByIrq(i)
  {
    if s.word != Free {
      var h :| 0 <= h < |s.ctx| && s.ctx[h].saves != [];
      assert Matches(s.word, Owner(s.k, s.ctx[h]), s.ctx[h]);
    }
  }

  lemma EnterInv(s: Sys, i: nat)
    requires Inv(s) && Can(s, Enter(i))
    ensures Inv(Entered(s, i))
  {
    hide KernelInvariants.Inv, Counted, PQ.Good, Typed, Matches;
    var r, n := Entered(s, i), |s.ctx|;
    NotHolding(s, i);
    Matched(s.word, i);
    CountedWorking(s.q);
    assert forall j :: 0 <= j < n ==> r.ctx[j] == s.ctx[j];
    if s.word != Free {
      var h :| 0 <= h < n && s.ctx[h].saves != [];
      assert r.ctx[h].saves != [];
    }
  }

  lemma Matched(word: Holder, i: nat)
    requires word != ByIrq(i)
    ensures Matches(word, ByIrq(i), Ctx(Some(i), [], Working))
  {
  }

  lemma ExitInv(s: Sys)
    requires Inv(s) && Can(s, Exit)
    ensures Inv(s.(ctx := Pop(s.ctx)))
  {
    hide KernelInvariants.Inv, Counted, PQ.Good, Typed, Matches;
    TopIs(s);
    var r, n := s.(ctx := Pop(s.ctx)), |s.ctx| - 1;
    assert forall j :: 0 <= j < n ==> r.ctx[j] == s.ctx[j];
    if s.word != Free {
      var h :| 0 <= h <= n && s.ctx[h].saves != [];
      assert r.ctx[h].saves != [];
    }
  }

  lemma CountedWorking(q: PQ.Pending)
    ensures Counted(Working, q)
  {
  }

  /** A change of the top context and the word that neither defers nor drains. */
  lemma TopInv(s: Sys, c: Ctx, word: Holder)
    requires Inv(s) && c.irq == Top(s).irq && Matches(word, Owner(s.k, c), c)
    requires word == s.word || ({word, s.word} <= {Free, Owner(s.k, c)})
    requires Counted(c.phase, s.q)
    ensures Inv(SetTop(s, c).(word := word))
  {
    hide KernelInvariants.Inv, Counted;
    TopExclusive(s, c, word);
    SetTopAt(s, c);
  }

  lemma TakeInv(s: Sys)
    requires Inv(s) && Can(s, Take)
    ensures Inv(Next(s, Take).s)
  {
    hide KernelInvariants.Inv;
    TopIs(s);
    var c := Top(s);
    TopInv(s, c.(saves := c.saves + [s.word]), Owner(s.k, c));
  }

  lemma DropInv(s: Sys)
    requires Inv(s) && Can(s, Drop)
    ensures Inv(Next(s, Drop).s)
  {
    hide KernelInvariants.Inv;
    TopIs(s);
    var c := Top(s);
    var n := |c.saves| - 1;
    if c.saves[n] != Free { TopInv(s, c.(saves := Pop(c.saves)), s.word); }
    else { TopInv(s, c.(phase := DrainResumes(AllDeferred(s))), s.word); }
    assert Next(s, Drop).s.word == s.word;
  }

  lemma ClearInv(s: Sys)
    requires Inv(s) && Can(s, Clear)
    ensures Inv(Cleared(s))
  {
    hide KernelInvariants.Inv;
    TopIs(s);
    var c := Top(s);
    TopInv(s, c.(saves := Pop(c.saves), phase := Working), Free);
  }

  lemma CheckInv(s: Sys)
    requires Inv(s) && Can(s, Check)
    ensures Inv(Checked(s))
  {
    hide KernelInvariants.Inv;
    KernelInvariants.FlagsInv(s.k, true, true);
    var r := Checked(s);
    assert forall j :: 0 <= j < |s.ctx| ==> Owner(r.k, s.ctx[j]) == Owner(s.k, s.ctx[j]);
  }

  // Deferring and draining

  /** The item is the dummy of neither pending queue. */
  predicate NotDummy(q: PQ.Pending, w: Who) {
    AQ.Link(w) != PQ.Dummy(q, PQ.Resumes) && AQ.Link(w) != PQ.Dummy(q, PQ.Sleeps)
  }

  /** No step defers the item that a pending queue drained last, and no step writes a deadline that does
      not fit where the handler stands in the sleep queue or that the alarm would miss. */
  predicate Careful(s: Sys, a: Act) {
    && (a.Defer? ==> NotDummy(s.q, a.w)) && (a.DeferSleep? ==> NotDummy(s.q, Irq(a.i)))
    && (a.Write? ==> Timers.Fits(s.k.sleep, a.i, a.at) && Timers.Reached(s.k.sleep, s.k.alarm, a.i, a.at))
  }

  lemma QueueInv(s: Sys, q: PQ.Pending)
    requires Inv(s) && PQ.Good(q) && Typed(q, s.deadline)
    requires |q.resumes.pushed| >= |s.q.resumes.pushed| && |q.sleeps.pushed| >= |s.q.sleeps.pushed|
    requires q.resumes.popped == s.q.resumes.popped || Top(s).phase.DrainResumes?
    requires q.sleeps.popped == s.q.sleeps.popped || Top(s).phase.DrainResumes? || Top(s).phase.DrainSleeps?
    ensures Inv(s.(q := q))
  {
    hide KernelInvariants.Inv, PQ.Good, Typed, Cells;
    TopIs(s);
    forall j | 0 <= j < |s.ctx| ensures Counted(s.ctx[j].phase, q) {
      assert Counted(s.ctx[j].phase, s.q);
      if Top(s).saves != [] && j < |s.ctx| - 1 { OnlyHolder(s, |s.ctx| - 1, j); }
    }
  }

  /** What a deferral adds, and where. */
  function Target(a: Act): PQ.Which { if a.Defer? then PQ.Resumes else PQ.Sleeps }

  function Item(a: Act): Who
    requires a.Defer? || a.DeferSleep?
  {
    if a.Defer? then a.w else Irq(a.i)
  }

  lemma DeferShape(s: Sys, which: PQ.Which, w: Who)
    requires PQ.Good(s.q) && DeferOn(s, which, w).Fine?
    ensures AQ.Link(w) !in s.q.owned
    ensures PQ.Push(s.q, which, AQ.Link(w)).Done?
    ensures DeferOn(s, which, w).s == s.(q := PQ.Push(s.q, which, AQ.Link(w)).p)
  {
    hide PQ.Good, PQ.Push, PQ.Items;
    PQ.RefusedIff(s.q, which, AQ.Link(w));
    PQ.GoodAt(s.q, PQ.Resumes);
  }

  lemma DeferInv(s: Sys, which: PQ.Which, w: Who)
    requires Inv(s) && NotDummy(s.q, w) && DeferOn(s, which, w).Fine?
    requires which == PQ.Sleeps ==> w.Irq? && w.i in s.deadline
    ensures Inv(DeferOn(s, which, w).s)
  {
    hide KernelInvariants.Inv, PQ.Good, PQ.Push, PQ.Items, DeferOn, Cells;
    DeferShape(s, which, w);
    PQ.PushKeeps(s.q, which, AQ.Link(w));
    QueueInv(s, PQ.Push(s.q, which, AQ.Link(w)).p);
  }

  /** A deferral keeps the pending queues exactly when the item is the dummy of neither. */
  lemma DeferKeepsIff(s: Sys, a: Act)
    requires Inv(s) && Can(s, a) && (a.Defer? || a.DeferSleep?) && Next(s, a).Fine?
    ensures Inv(Next(s, a).s) <==> Careful(s, a)
  {
    hide KernelInvariants.Inv, PQ.Good, PQ.Push, DeferOn, Cells, Exclusive;
    DeferShape(s, Target(a), Item(a));
    if Careful(s, a) { DeferInv(s, Target(a), Item(a)); }
    else { PQ.PushKeepsIff(s.q, Target(a), AQ.Link(Item(a))); }
  }

  lemma WroteCells(sleep: seq<Sleeper>, deadline: map<nat, nat>, i: nat, at: nat)
    requires Cells(sleep, deadline)
    ensures Cells(Timers.SetDeadline(sleep, i, at), deadline[i := at])
  {
    hide Elems;
    Timers.DeadlineWriteKeepsSleepers(sleep, i, at);
  }

  /** Writing a deadline keeps the timers exactly when the deadline fits and the alarm reaches it. */
  lemma WriteKeepsIff(s: Sys, i: nat, at: nat)
    requires Inv(s)
    ensures Inv(Wrote(s, i, at)) <==> Careful(s, Write(i, at))
  {
    hide KernelInvariants.Inv, PQ.Good, Cells, Counted, Matches, Timers.Fits, Timers.Reached, Timers.SetDeadline;
    WroteCells(s.k.sleep, s.deadline, i, at);
    Timers.DeadlineWriteInvIff(s.k, i, at);
    var r := Wrote(s, i, at);
    assert forall j :: 0 <= j < |s.ctx| ==> Owner(r.k, s.ctx[j]) == Owner(s.k, s.ctx[j]);
  }

  /** Deferring halts exactly when the item has been deferred and not yet drained. */
  lemma DeferHaltsIff(s: Sys, a: Act)
    requires Inv(s) && (a.Defer? || a.DeferSleep?)
    ensures Next(s, a) == Stop(ItemAlreadyInQueue) <==>
      || AQ.Link(Item(a)) in Elems(Deferred(s, PQ.Resumes)[|Drained(s, PQ.Resumes)|..])
      || AQ.Link(Item(a)) in Elems(Deferred(s, PQ.Sleeps)[|Drained(s, PQ.Sleeps)|..])
    ensures Next(s, a).Fine? || Next(s, a) == Stop(ItemAlreadyInQueue)
  {
    hide KernelInvariants.Inv, PQ.Push, Elems;
    var n := AQ.Link(Item(a));
    PQ.RefusedIff(s.q, Target(a), n);
    Waiting(s.q, PQ.Resumes);
    Waiting(s.q, PQ.Sleeps);
    PQ.GoodAt(s.q, PQ.Resumes);
    if n !in s.q.owned { PQ.PushKeepsIff(s.q, Target(a), n); }
  }

  lemma Waiting(q: PQ.Pending, w: PQ.Which)
    requires PQ.Good(q)
    ensures |PQ.EndsOf(q, w).popped| <= |PQ.EndsOf(q, w).pushed|
    ensures PQ.EndsOf(q, w).pushed[|PQ.EndsOf(q, w).popped|..] == PQ.Items(q, w)
  {
    PQ.GoodAt(q, w);
    hide PQ.Good;
    var e := PQ.EndsOf(q, w);
    assert e.pushed == e.popped + PQ.Items(q, w);
  }

  /** Drained sleepers are handlers with a deadline. */
  ghost predicate Dated(s: Sys, which: PQ.Which, n: AQ.Ref) {
    n.Link? && (which == PQ.Sleeps ==> n.w.Irq? && n.w.i in s.deadline)
  }

  /** What one round of the drain loop does to the queues. */
  lemma DrainShape(s: Sys)
    requires Inv(s) && Can(s, Drain)
    ensures var w := Source(Top(s).phase); var o := PQ.Pop(s.q, w);
      && o.Done? && PQ.Good(o.p) && Typed(o.p, s.deadline)
      && (o.item.None? ==> o.p == s.q && PQ.Items(s.q, w) == [])
      && (o.item.Some? ==> PQ.Items(s.q, w) != [] && o.item.value == PQ.Items(s.q, w)[0] && Dated(s, w, o.item.value))
  {
    hide KernelInvariants.Inv, PQ.Pop, PQ.Good;
    var w := Source(Top(s).phase);
    PQ.PopTakesOldest(s.q, w);
    Waiting(s.q, w);
    if PQ.Items(s.q, w) != [] {
      var e := PQ.EndsOf(s.q, w);
      assert e.pushed[|e.popped|] == PQ.Items(s.q, w)[0];
    }
  }

  lemma DrainApplies(s: Sys, which: PQ.Which, w: Who)
    requires Inv(s) && Apply(s, ActionFor(s, which, w)).Fine?
    ensures Inv(Apply(s, ActionFor(s, which, w)).s)
  {
    hide Inv, Step;
    KeepsCurrent(s.k, ActionFor(s, which, w));
    ApplyInv(s, ActionFor(s, which, w));
  }

  lemma OnwardCounted(s: Sys)
    requires Inv(s) && Can(s, Drain) && PQ.Items(s.q, Source(Top(s).phase)) == []
    ensures Counted(Onward(s, Top(s).phase), s.q)
  {
    hide KernelInvariants.Inv, PQ.Good, PQ.Items;
    TopIs(s);
    Waiting(s.q, Source(Top(s).phase));
  }

  lemma DrainInv(s: Sys)
    requires Inv(s) && Can(s, Drain) && Next(s, Drain).Fine?
    ensures Inv(Next(s, Drain).s)
  {
    hide KernelInvariants.Inv, Step, Apply, PQ.Pop, PQ.Good, PQ.Items, Typed, Cells, Onward, ActionFor, Counted;
    TopIs(s);
    DrainShape(s);
    var c, w := Top(s), Source(Top(s).phase);
    PQ.PopTakesOldest(s.q, w);
    var o := PQ.Pop(s.q, w);
    if o.item.None? {
      OnwardCounted(s);
      TopInv(s, c.(phase := Onward(s, c.phase)), s.word) by { OnwardBusy(s, c.phase); }
    } else {
      QueueInv(s, o.p);
      SameAction(s, o.p, w, o.item.value.w);
      DrainApplies(s.(q := o.p), w, o.item.value.w);
    }
  }

  lemma OnwardBusy(s: Sys, p: Phase)
    ensures Onward(s, p) == Working <==> p == Working
  {
  }

  lemma SameAction(s: Sys, q: PQ.Pending, which: PQ.Which, w: Who)
    ensures ActionFor(s.(q := q), which, w) == ActionFor(s, which, w)
  {
  }

  lemma OpInv(s: Sys, a: Action)
    requires Inv(s) && Can(s, Op(a)) && Next(s, Op(a)).Fine?
    ensures Inv(Next(s, Op(a)).s)
  {
    hide KernelInvariants.Inv, Step;
    TopIs(s);
    if !Touches(a) {
      KernelInvariants.CurrentKnown(s.k);
      UntouchedLists(s.k, a);
    } else if Top(s).irq.None? {
      KeepsCurrent(s.k, a);
    }
    ApplyInv(s, a);
  }

  lemma NextInv(s: Sys, a: Act)
    requires Inv(s) && Can(s, a) && Careful(s, a) && Next(s, a).Fine?
    ensures Inv(Next(s, a).s)
  {
    hide Inv, Can, Careful, Top, Apply, Entered, Cleared, Checked, DrainOne, DeferOn;
    match a
    case Enter(i) => EnterInv(s, i);
    case Exit => ExitInv(s);
    case Take => TakeInv(s);
    case Drop => DropInv(s);
    case Drain => DrainInv(s);
    case Clear => ClearInv(s);
    case Check => CheckInv(s);
    case Op(b) => OpInv(s, b);
    case Defer(w) => DeferKeepsIff(s, a);
    case Write(i, at) => WriteKeepsIff(s, i, at);
    case DeferSleep(i) => DeferKeepsIff(s, a);
  }

  // Runs

  function Run(s: Sys, acts: seq<Act>): Result
    decreases |acts|
  {
    if acts == [] then Fine(s) else
    match Next(s, acts[0])
    case Fine(r) => Run(r, acts[1..])
    case Stop(why) => Stop(why)
  }

  /** Every step is possible when it is taken. */
  predicate Possible(s: Sys, acts: seq<Act>)
    decreases |acts|
  {
    acts != [] ==> Can(s, acts[0]) && (Next(s, acts[0]).Fine? ==> Possible(Next(s, acts[0]).s, acts[1..]))
  }

  /** Every step is possible and careful. */
  predicate Sound(s: Sys, acts: seq<Act>)
    decreases |acts|
  {
    acts != [] ==>
      Can(s, acts[0]) && Careful(s, acts[0]) && (Next(s, acts[0]).Fine? ==> Sound(Next(s, acts[0]).s, acts[1..]))
  }

  function Boot(k: State): Sys { Sys(k, Free, [Ctx(None, [], Working)], PQ.Empty(), map[], {}) }

  lemma BootInv(k: State)
    requires KernelInvariants.Init(k)
    ensures Inv(Boot(k))
  {
    hide KernelInvariants.Inv, PQ.Good;
    KernelInvariants.InitInv(k);
    PQ.EmptyGood();
  }

  lemma {:induction false} RunInv(s: Sys, acts: seq<Act>)
    requires Inv(s) && Sound(s, acts) && Run(s, acts).Fine?
    ensures Inv(Run(s, acts).s)
    decreases |acts|
  {
    hide Inv, Can, Next, Careful;
    if acts == [] {
    } else {
      NextInv(s, acts[0]);
      RunInv(Next(s, acts[0]).s, acts[1..]);
    }
  }

  /** In every reachable state, a step that changes a scheduler list, a thread's state, the alarm or
      the current thread is taken by the context that holds the word, and it alone holds it. The one
      exception is the deadline write, which changes the deadlines of queued entries only. */
  lemma OnlyHolderChangesLists(s: Sys, a: Act)
    requires Inv(s) && Can(s, a) && Next(s, a).Fine? && !SameLists(s.k, Next(s, a).s.k)
    ensures
      || (s.word == Owner(s.k, Top(s)) && forall j :: 0 <= j < |s.ctx| - 1 ==> s.ctx[j].saves == [])
      || (a.Write? && Next(s, a).s.k == s.k.(sleep := Timers.SetDeadline(s.k.sleep, a.i, a.at)))
  {
    hide KernelInvariants.Inv, Step, PQ.Push, PQ.Pop, PQ.Good;
    TopIs(s);
    if a.Op? && !Touches(a.a) {
      KernelInvariants.CurrentKnown(s.k);
      UntouchedLists(s.k, a.a);
    }
    if !a.Write? {
      forall j | 0 <= j < |s.ctx| - 1 ensures s.ctx[j].saves == [] { OnlyHolder(s, |s.ctx| - 1, j); }
    }
  }

  lemma DrainKeepsCurrent(s: Sys)
    requires Can(s, Drain) && Next(s, Drain).Fine?
    ensures Next(s, Drain).s.k.current == s.k.current
  {
    hide Step, PQ.Pop;
    var w := Source(Top(s).phase);
    var o := PQ.Pop(s.q, w);
    if o.Done? && o.item.Some? && o.item.value.Link? {
      var a := ActionFor(s, w, o.item.value.w);
      if Step(s.k, a).Ok? { KeepsCurrent(s.k, a); }
    }
  }

  /** While a thread holds the word it stays the current thread, whatever interrupts do. */
  lemma HolderStaysCurrent(s: Sys, a: Act)
    requires Inv(s) && Can(s, a) && Next(s, a).Fine? && s.word.ByThread?
    ensures s.word.t == s.k.current == Next(s, a).s.k.current
  {
    hide KernelInvariants.Inv, Step, PQ.Push, PQ.Pop, PQ.Good;
    TopIs(s);
    var h :| 0 <= h < |s.ctx| && s.ctx[h].saves != [];
    assert Matches(s.word, Owner(s.k, s.ctx[h]), s.ctx[h]);
    if a.Drain? { DrainKeepsCurrent(s); }
    else if a.Op? {
      if !Touches(a.a) {
        KernelInvariants.CurrentKnown(s.k);
        UntouchedLists(s.k, a.a);
      } else {
        KeepsCurrent(s.k, a.a);
      }
    }
  }

  // Timers

  /** In every sound run every queued handler stands under the deadline in its cell, the queue is in
      deadline order, and the alarm goes off in time for everyone in it. */
  lemma AlarmInTime(k: State, acts: seq<Act>)
    requires KernelInvariants.Init(k) && Sound(Boot(k), acts) && Run(Boot(k), acts).Fine?
    ensures var r := Run(Boot(k), acts).s;
      && Cells(r.k.sleep, r.deadline) && KernelInvariants.Ascending(r.k.sleep) && Timers.InTime(r.k.sleep, r.k.alarm)
  {
    hide Run, Sound, KernelInvariants.Init;
    BootInv(k);
    RunInv(Boot(k), acts);
    var r := Run(Boot(k), acts).s;
    Timers.InTimeIff(r.k.sleep, r.k.alarm);
  }

  // Deferred resumes and sleeps

  /** Everything deferred is drained in the order it was deferred, once, or still queued. */
  lemma DeferredInOrder(k: State, acts: seq<Act>, w: PQ.Which)
    requires KernelInvariants.Init(k) && Sound(Boot(k), acts) && Run(Boot(k), acts).Fine?
    ensures var s := Run(Boot(k), acts).s; Deferred(s, w) == Drained(s, w) + PQ.Items(s.q, w)
  {
    hide KernelInvariants.Inv;
    BootInv(k);
    RunInv(Boot(k), acts);
    PQ.GoodAt(Run(Boot(k), acts).s.q, w);
  }

  /** No drain spins and no drained item is missing. */
  lemma StopsOnlyBy(s: Sys, a: Act)
    requires Inv(s) && Can(s, a)
    ensures Next(s, a).Stop? ==>
        Next(s, a).why == KernelHalt || (Next(s, a).why == ItemAlreadyInQueue && (a.Defer? || a.DeferSleep?))
  {
    hide KernelInvariants.Inv, Step, PQ.Push, PQ.Pop, PQ.Good, Elems, PQ.Items;
    if a.Defer? || a.DeferSleep? { DeferHaltsIff(s, a); }
    if a.Drain? { DrainShape(s); }
  }

  /** A sound run stops only by a panic of the kernel or by deferring an item that is still pending. */
  lemma SoundRunStopsOnlyBy(k: State, acts: seq<Act>)
    requires KernelInvariants.Init(k) && Sound(Boot(k), acts) && Run(Boot(k), acts).Stop?
    ensures Run(Boot(k), acts).why == KernelHalt || Run(Boot(k), acts).why == ItemAlreadyInQueue
  {
    BootInv(k);
    StopsFrom(Boot(k), acts);
  }

  lemma {:induction false} StopsFrom(s: Sys, acts: seq<Act>)
    requires Inv(s) && Sound(s, acts) && Run(s, acts).Stop?
    ensures Run(s, acts).why == KernelHalt || Run(s, acts).why == ItemAlreadyInQueue
    decreases |acts|
  {
    hide Inv, Can, Next, Careful;
    StopsOnlyBy(s, acts[0]);
    if Next(s, acts[0]).Fine? {
      NextInv(s, acts[0]);
      StopsFrom(Next(s, acts[0]).s, acts[1..]);
    }
  }

  /** The logs only grow at the end. What leaves a pending queue is its oldest item, which the same step
      resumes in the kernel or puts to sleep there until its deadline. */
  lemma LogsGrow(s: Sys, a: Act, w: PQ.Which)
    requires Inv(s) && Can(s, a) && Careful(s, a) && Next(s, a).Fine?
    ensures var r, q := Next(s, a).s, PQ.Items(s.q, w);
      && Deferred(s, w) <= Deferred(r, w) && Drained(s, w) <= Drained(r, w)
      && (Drained(r, w) != Drained(s, w) ==>
            && q != [] && Dated(s, w, q[0]) && Drained(r, w) == Drained(s, w) + [q[0]]
            && Ok(r.k) == Step(s.k, if w == PQ.Resumes then ResumeNow(q[0].w)
                                    else DoIrqSleep(q[0].w.i, s.deadline[q[0].w.i])))
  {
    hide KernelInvariants.Inv, Step, PQ.Push, PQ.Pop, PQ.Good, PQ.Items;
    if a.Defer? || a.DeferSleep? {
      DeferShape(s, Target(a), Item(a));
      PQ.PushKeeps(s.q, Target(a), AQ.Link(Item(a)));
    } else if a.Drain? {
      DrainShape(s);
      PQ.PopTakesOldest(s.q, Source(Top(s).phase));
    }
  }

  /** An outermost release that has yet to drain queue `w` to its end. */
  predicate Ahead(p: Phase, w: PQ.Which) { p.DrainResumes? || (p.DrainSleeps? && w == PQ.Sleeps) }

  /** `mark` items are drained, or an outermost release that will drain them is under way. */
  ghost predicate Covered(s: Sys, w: PQ.Which, mark: nat) {
    || mark <= |Drained(s, w)|
    || exists j :: 0 <= j < |s.ctx| && Ahead(s.ctx[j].phase, w) && mark <= Count(s.ctx[j].phase.mark, w)
  }

  /** A release under way goes on draining until nothing is left. */
  lemma CoveredDrain(s: Sys, w: PQ.Which, mark: nat)
    requires Inv(s) && Can(s, Drain) && Next(s, Drain).Fine?
    requires Ahead(Top(s).phase, w) && mark <= Count(Top(s).phase.mark, w) && mark > |Drained(s, w)|
    ensures var p := Top(Next(s, Drain).s).phase; Ahead(p, w) && p.mark == Top(s).phase.mark
  {
    hide KernelInvariants.Inv, Step, PQ.Pop, PQ.Good, PQ.Items, Exclusive;
    TopIs(s);
    DrainShape(s);
    Waiting(s.q, w);
  }

  lemma CoveredNext(s: Sys, a: Act, w: PQ.Which, mark: nat)
    requires Inv(s) && Can(s, a) && Careful(s, a) && Next(s, a).Fine? && Covered(s, w, mark)
    ensures Covered(Next(s, a).s, w, mark)
  {
    hide KernelInvariants.Inv, Step, PQ.Push, PQ.Pop, PQ.Good, PQ.Items, Counted, Matches, Typed;
    var r := Next(s, a).s;
    TopIs(s);
    LogsGrow(s, a, w);
    if mark > |Drained(s, w)| {
      var j :| 0 <= j < |s.ctx| && Ahead(s.ctx[j].phase, w) && mark <= Count(s.ctx[j].phase.mark, w);
      if j == |s.ctx| - 1 && a.Drain? { CoveredDrain(s, w, mark); }
      assert Ahead(r.ctx[j].phase, w) && r.ctx[j].phase.mark == s.ctx[j].phase.mark;
    }
  }

  lemma {:induction false} CoveredRun(s: Sys, acts: seq<Act>, w: PQ.Which, mark: nat)
    requires Inv(s) && Sound(s, acts) && Run(s, acts).Fine? && Covered(s, w, mark)
    ensures Covered(Run(s, acts).s, w, mark) && Deferred(s, w) <= Deferred(Run(s, acts).s, w)
    decreases |acts|
  {
    hide Inv, Can, Next, Covered, Careful;
    if acts == [] {
    } else {
      var r := Next(s, acts[0]).s;
      NextInv(s, acts[0]);
      CoveredNext(s, acts[0], w, mark);
      LogsGrow(s, acts[0], w);
      CoveredRun(r, acts[1..], w, mark);
    }
  }

  /** By the time the word is free after an outermost release began, everything deferred before it began
      has been applied, in order, whatever else was deferred meanwhile. */
  lemma ReleaseAppliesDeferred(s: Sys, acts: seq<Act>, w: PQ.Which)
    requires Inv(s) && Can(s, Drop) && Top(s).saves == [Free]
    requires Sound(Next(s, Drop).s, acts) && Run(Next(s, Drop).s, acts).Fine?
    requires Run(Next(s, Drop).s, acts).s.word == Free
    ensures Deferred(s, w) <= Drained(Run(Next(s, Drop).s, acts).s, w)
  {
    hide KernelInvariants.Inv, PQ.Good;
    TopIs(s);
    var s1, n := Next(s, Drop).s, |s.ctx| - 1;
    assert s1.ctx[n].phase == DrainResumes(AllDeferred(s));
    NextInv(s, Drop);
    CoveredRun(s1, acts, w, |Deferred(s, w)|);
    RunInv(s1, acts);
    var r := Run(s1, acts).s;
    hide Run, Sound;
    PrefixOf(r, w);
    forall j | 0 <= j < |r.ctx| ensures r.ctx[j].phase == Working {
      assert Matches(r.word, Owner(r.k, r.ctx[j]), r.ctx[j]);
    }
  }

  lemma PrefixOf(s: Sys, w: PQ.Which)
    requires PQ.Good(s.q)
    ensures Drained(s, w) <= Deferred(s, w)
  {
    PQ.GoodAt(s.q, w);
  }

  /** Clearing the word leaves something deferred behind exactly when it was deferred between the drain's
      last look at its queue and the clear. */
  lemma LeftBehindIff(s: Sys, w: PQ.Which)
    requires Inv(s) && Can(s, Clear)
    ensures Top(s).phase.Clearing?
    ensures PQ.Items(Cleared(s).q, w) != [] <==> |Deferred(s, w)| > Count(Top(s).phase.seen, w)
  {
    hide KernelInvariants.Inv, PQ.Good;
    TopIs(s);
    Waiting(s.q, w);
  }

  // Runs that go wrong

  lemma StepTo(s: Sys, a: Act, rest: seq<Act>, r: Sys)
    requires Can(s, a) && Next(s, a) == Fine(r)
    ensures Run(s, [a] + rest) == Run(r, rest)
    ensures Possible(s, [a] + rest) == Possible(r, rest)
    ensures Careful(s, a) ==> Sound(s, [a] + rest) == Sound(r, rest)
  {
    hide Can, Next, Careful;
    assert ([a] + rest)[1..] == rest;
  }

  lemma StopAt(s: Sys, a: Act, why: Why)
    requires Can(s, a) && Next(s, a) == Stop(why)
    ensures Run(s, [a]) == Stop(why) && Possible(s, [a]) && (Careful(s, a) ==> Sound(s, [a]))
  {
    hide Can, Next, Careful;
  }

  lemma Stopped(s: Sys)
    ensures Run(s, []) == Fine(s) && Possible(s, []) && Sound(s, [])
  {
  }

  const NOTHING := Marks(0, 0)

  /** The thread holds the word, in phase `p`, with handler `i` on top of it if there is one. */
  function Held(k: State, p: Phase, i: Option<nat>, q: PQ.Pending, d: map<nat, nat>): Sys {
    var t := Ctx(None, [Free], p);
    Sys(k, ByThread(k.current), if i == None then [t] else [t, Ctx(i, [], Working)], q, d, {})
  }

  /** The queues after one push on an empty pending queue. */
  function One(which: PQ.Which, w: Who): PQ.Pending {
    PQ.Put(PQ.Empty(), which, AQ.PushedAlone(PQ.View(PQ.Empty(), which), AQ.Link(w)))
  }

  lemma OneGood(which: PQ.Which, w: Who)
    ensures PQ.Push(PQ.Empty(), which, AQ.Link(w)) == PQ.Done(One(which, w), None)
    ensures PQ.Good(One(which, w)) && PQ.Items(One(which, w), which) == [AQ.Link(w)]
  {
    hide PQ.Push, PQ.Good;
    PQ.EmptyGood();
    PQ.GoodAt(PQ.Empty(), which);
    PQ.PushDone(PQ.Empty(), which, AQ.Link(w));
    PQ.PushKeeps(PQ.Empty(), which, AQ.Link(w));
  }

  lemma Taken(k: State, d: map<nat, nat>, rest: seq<Act>)
    ensures var s, r := Boot(k).(deadline := d), Held(k, Working, None, PQ.Empty(), d);
      && Run(s, [Take] + rest) == Run(r, rest)
      && Possible(s, [Take] + rest) == Possible(r, rest)
      && Sound(s, [Take] + rest) == Sound(r, rest)
  {
    hide Possible, Run, Sound;
    assert [] + [Free] == [Free] && [Ctx(None, [], Working)][0 := Ctx(None, [Free], Working)] ==
        [Ctx(None, [Free], Working)];
    StepTo(Boot(k).(deadline := d), Take, rest, Held(k, Working, None, PQ.Empty(), d));
  }

  /** A handler arrives. */
  lemma Arriving(k: State, p: Phase, i: nat, q: PQ.Pending, d: map<nat, nat>, rest: seq<Act>)
    ensures var s, r := Held(k, p, None, q, d), Held(k, p, Some(i), q, d);
      && Run(s, [Enter(i)] + rest) == Run(r, rest)
      && Possible(s, [Enter(i)] + rest) == Possible(r, rest)
      && Sound(s, [Enter(i)] + rest) == Sound(r, rest)
  {
    hide Possible, Run, Sound;
    StepTo(Held(k, p, None, q, d), Enter(i), rest, Held(k, p, Some(i), q, d));
  }

  /** A handler defers `w`. */
  lemma Deferring(k: State, p: Phase, i: nat, q: PQ.Pending, d: map<nat, nat>, w: Who, q': PQ.Pending, rest: seq<Act>)
    requires PQ.Push(q, PQ.Resumes, AQ.Link(w)) == PQ.Done(q', None)
    ensures var s, r := Held(k, p, Some(i), q, d), Held(k, p, Some(i), q', d);
      && Run(s, [Defer(w)] + rest) == Run(r, rest)
      && Possible(s, [Defer(w)] + rest) == Possible(r, rest)
      && (NotDummy(q, w) ==> Sound(s, [Defer(w)] + rest) == Sound(r, rest))
  {
    hide Possible, Run, Sound, PQ.Push, NotDummy;
    StepTo(Held(k, p, Some(i), q, d), Defer(w), rest, Held(k, p, Some(i), q', d));
  }

  lemma Leaving(k: State, p: Phase, i: nat, q: PQ.Pending, d: map<nat, nat>, rest: seq<Act>)
    ensures var s, r := Held(k, p, Some(i), q, d), Held(k, p, None, q, d);
      && Run(s, [Exit] + rest) == Run(r, rest)
      && Possible(s, [Exit] + rest) == Possible(r, rest)
      && Sound(s, [Exit] + rest) == Sound(r, rest)
  {
    hide Possible, Run, Sound;
    assert Pop(Held(k, p, Some(i), q, d).ctx) == [Ctx(None, [Free], p)];
    StepTo(Held(k, p, Some(i), q, d), Exit, rest, Held(k, p, None, q, d));
  }

  lemma OneRefuses(w: Who)
    ensures PQ.Push(One(PQ.Resumes, w), PQ.Resumes, AQ.Link(w)) == PQ.Refused
  {
    hide PQ.Push, PQ.Good, One;
    OneGood(PQ.Resumes, w);
    AtElems([AQ.Link(w)], 0);
    PQ.RefusedIff(One(PQ.Resumes, w), PQ.Resumes, AQ.Link(w));
  }

  /** Two interrupts that resume one thread while the word is taken halt the kernel. */
  lemma TwiceDeferredHalts(k: State, i: nat, w: Who)
    ensures var acts := [Take] + ([Enter(i)] + ([Defer(w)] + [Defer(w)]));
      Sound(Boot(k), acts) && Run(Boot(k), acts) == Stop(ItemAlreadyInQueue)
  {
    hide Possible, Run, Sound, PQ.Push, PQ.Good;
    OneGood(PQ.Resumes, w);
    var q := One(PQ.Resumes, w);
    Taken(k, map[], [Enter(i)] + ([Defer(w)] + [Defer(w)]));
    Arriving(k, Working, i, PQ.Empty(), map[], [Defer(w)] + [Defer(w)]);
    Deferring(k, Working, i, PQ.Empty(), map[], w, q, [Defer(w)]);
    OneRefuses(w);
    hide One;
    StopAt(Held(k, Working, Some(i), q, map[]), Defer(w), ItemAlreadyInQueue);
  }

  /** The queues after that push has been drained. */
  function Emptied(w: Who): PQ.Pending {
    var q := One(PQ.Resumes, w);
    PQ.Put(q, PQ.Resumes, AQ.PoppedAlone(PQ.View(q, PQ.Resumes), AQ.Link(w)))
  }

  lemma EmptiedGood(w: Who)
    ensures PQ.Pop(One(PQ.Resumes, w), PQ.Resumes) == PQ.Done(Emptied(w), Some(AQ.Link(w)))
    ensures PQ.Good(Emptied(w)) && PQ.Items(Emptied(w), PQ.Resumes) == []
      && PQ.Dummy(Emptied(w), PQ.Resumes) == AQ.Link(w)
  {
    hide PQ.Pop, PQ.Good;
    OneGood(PQ.Resumes, w);
    PQ.PopDone(One(PQ.Resumes, w), PQ.Resumes);
    PQ.PopTakesOldest(One(PQ.Resumes, w), PQ.Resumes);
  }

  /** The kernel after the drain has resumed `w`. */
  function Resumed(k: State, w: Who): State { Step(k, ResumeNow(w)).s }

  lemma ResumedKeeps(k: State, w: Who)
    ensures Step(k, ResumeNow(w)).Ok? && Resumed(k, w).current == k.current
  {
    KeepsCurrent(k, ResumeNow(w)) by { hide Resume; }
    hide Resume;
  }

  /** A thread or handler that is deferred, drained and deferred again, with no other in between: its
      link is the dummy, and the drain that comes next spins forever. */
  lemma RedeferredSpins(k: State, i: nat, w: Who)
    ensures var again := [Enter(i)] + ([Defer(w)] + ([Exit] + [Drain]));
      var acts := [Take] + ([Enter(i)] + ([Defer(w)] + ([Exit] + ([Drop] + ([Drain] + again)))));
      Possible(Boot(k), acts) && Run(Boot(k), acts) == Stop(Spins)
  {
    hide Possible, Run, Sound, PQ.Push, PQ.Pop, PQ.Good, Step;
    OneGood(PQ.Resumes, w);
    var n, k1, p, none := AQ.Link(w), Resumed(k, w), DrainResumes(Marks(1, 0)), map[];
    var q, again := Repushed(w), [Enter(i)] + ([Defer(w)] + ([Exit] + [Drain]));
    RepushedSpins(w);
    Taken(k, none, [Enter(i)] + ([Defer(w)] + ([Exit] + ([Drop] + ([Drain] + again)))));
    Arriving(k, Working, i, PQ.Empty(), none, [Defer(w)] + ([Exit] + ([Drop] + ([Drain] + again))));
    Deferring(k, Working, i, PQ.Empty(), none, w, One(PQ.Resumes, w), [Exit] + ([Drop] + ([Drain] + again)));
    Leaving(k, Working, i, One(PQ.Resumes, w), none, [Drop] + ([Drain] + again));
    Draining(k, w, again);
    Arriving(k1, p, i, Emptied(w), none, [Defer(w)] + ([Exit] + [Drain]));
    Deferring(k1, p, i, Emptied(w), none, w, q, [Exit] + [Drain]);
    Leaving(k1, p, i, q, none, [Drain]);
    StopAt(Held(k1, p, None, q, none), Drain, Spins);
  }

  /** The queues after `w` has been pushed again. */
  function Repushed(w: Who): PQ.Pending {
    PQ.Put(Emptied(w), PQ.Resumes, AQ.PushedAlone(PQ.View(Emptied(w), PQ.Resumes), AQ.Link(w)))
  }

  lemma RepushedSpins(w: Who)
    ensures PQ.Push(Emptied(w), PQ.Resumes, AQ.Link(w)) == PQ.Done(Repushed(w), None)
    ensures PQ.Pop(Repushed(w), PQ.Resumes) == PQ.Unfinished
  {
    hide PQ.Push, PQ.Pop, PQ.Good;
    EmptiedGood(w);
    PQ.GoodAt(Emptied(w), PQ.Resumes);
    PQ.DummyNotOwned(Emptied(w), PQ.Resumes);
    PQ.PushDone(Emptied(w), PQ.Resumes, AQ.Link(w));
    PQ.RepushedDummy(Emptied(w), PQ.Resumes, 0);
  }

  lemma Draining(k: State, w: Who, rest: seq<Act>)
    ensures var s := Held(k, Working, None, One(PQ.Resumes, w), map[]);
      var r := Held(Resumed(k, w), DrainResumes(Marks(1, 0)), None, Emptied(w), map[]);
      Run(s, [Drop] + ([Drain] + rest)) == Run(r, rest) && Possible(s, [Drop] + ([Drain] + rest)) == Possible(r, rest)
  {
    hide Possible, Run, Sound, PQ.Pop, PQ.Good, Step;
    EmptiedGood(w);
    ResumedKeeps(k, w);
    var p := DrainResumes(Marks(1, 0));
    var s1 := Held(k, p, None, One(PQ.Resumes, w), map[]);
    assert [Ctx(None, [Free], Working)][0 := Ctx(None, [Free], p)] == [Ctx(None, [Free], p)];
    StepTo(Held(k, Working, None, One(PQ.Resumes, w), map[]), Drop, [Drain] + rest, s1);
    StepTo(s1, Drain, rest, Held(Resumed(k, w), p, None, Emptied(w), map[]));
  }

  /** An outermost release with nothing pending, up to its clear. */
  lemma ReachClear(s: Sys, rest: seq<Act>)
    requires s.ctx != [] && Top(s).saves == [Free] && Top(s).phase == Working && s.due == {} && s.q == PQ.Empty()
    ensures var r := SetTop(s, Top(s).(phase := Clearing(NOTHING, NOTHING)));
      && Run(s, [Drop] + ([Drain] + ([Drain] + rest))) == Run(r, rest)
      && Possible(s, [Drop] + ([Drain] + ([Drain] + rest))) == Possible(r, rest)
      && Sound(s, [Drop] + ([Drain] + ([Drain] + rest))) == Sound(r, rest)
  {
    hide Possible, Run, Sound, PQ.Pop, PQ.Good;
    PQ.EmptyGood();
    PQ.PopTakesOldest(PQ.Empty(), PQ.Resumes);
    PQ.PopTakesOldest(PQ.Empty(), PQ.Sleeps);
    var c := Top(s);
    var s1 := SetTop(s, c.(phase := DrainResumes(NOTHING)));
    var s2 := SetTop(s, c.(phase := DrainSleeps(NOTHING, 0)));
    var s3 := SetTop(s, c.(phase := Clearing(NOTHING, NOTHING)));
    SetTopTwice(s, c.(phase := DrainResumes(NOTHING)), c.(phase := DrainSleeps(NOTHING, 0)));
    SetTopTwice(s, c.(phase := DrainSleeps(NOTHING, 0)), c.(phase := Clearing(NOTHING, NOTHING)));
    StepTo(s, Drop, [Drain] + ([Drain] + rest), s1);
    StepTo(s1, Drain, [Drain] + rest, s2);
    StepTo(s2, Drain, rest, s3);
  }

  lemma SetTopTwice(s: Sys, c: Ctx, d: Ctx)
    requires s.ctx != []
    ensures SetTop(SetTop(s, c), d) == SetTop(s, d) && Top(SetTop(s, c)) == c
  {
  }

  /** A thread takes the word and releases it up to the clear. */
  lemma ThreadReachesClear(k: State, d: map<nat, nat>, rest: seq<Act>)
    ensures var s, r := Boot(k).(deadline := d), Held(k, Clearing(NOTHING, NOTHING), None, PQ.Empty(), d);
      && Run(s, [Take] + ([Drop] + ([Drain] + ([Drain] + rest)))) == Run(r, rest)
      && Possible(s, [Take] + ([Drop] + ([Drain] + ([Drain] + rest)))) == Possible(r, rest)
      && Sound(s, [Take] + ([Drop] + ([Drain] + ([Drain] + rest)))) == Sound(r, rest)
  {
    hide Possible, Run, Sound;
    Taken(k, d, [Drop] + ([Drain] + ([Drain] + rest)));
    var s := Held(k, Working, None, PQ.Empty(), d);
    assert SetTop(s, Top(s).(phase := Clearing(NOTHING, NOTHING))).ctx ==
        [Ctx(None, [Free], Clearing(NOTHING, NOTHING))];
    ReachClear(s, rest);
  }

  /** The thread's clear, with whatever was deferred before it still pending. */
  lemma Clears(k: State, q: PQ.Pending, d: map<nat, nat>)
    ensures var s, r := Held(k, Clearing(NOTHING, NOTHING), None, q, d),
      Boot(k).(q := q, deadline := d, due := {k.current});
      Run(s, [Clear]) == Fine(r) && Possible(s, [Clear]) && Sound(s, [Clear])
  {
    hide Possible, Run, Sound;
    var s := Held(k, Clearing(NOTHING, NOTHING), None, q, d);
    var r := Boot(k).(q := q, deadline := d, due := {k.current});
    assert SetTop(s, Ctx(None, [], Working)).ctx == [Ctx(None, [], Working)];
    assert [Clear] + [] == [Clear];
    StepTo(s, Clear, [], r);
    Stopped(r);
  }

  /** The window between the drain and the clear is real: on any kernel, a resume deferred in it
      outlives the release. */
  lemma ResumeLeftBehind(k: State, i: nat, w: Who)
    ensures var acts := [Take] + ([Drop] + ([Drain] + ([Drain] + ([Enter(i)] + ([Defer(w)] + ([Exit] + [Clear]))))));
      && Sound(Boot(k), acts) && Run(Boot(k), acts).Fine?
      && Run(Boot(k), acts).s.word == Free && PQ.Items(Run(Boot(k), acts).s.q, PQ.Resumes) == [AQ.Link(w)]
  {
    hide Possible, Run, Sound, PQ.Push, PQ.Good, PQ.Pop;
    var p, q := Clearing(NOTHING, NOTHING), One(PQ.Resumes, w);
    OneGood(PQ.Resumes, w);
    ThreadReachesClear(k, map[], [Enter(i)] + ([Defer(w)] + ([Exit] + [Clear])));
    Arriving(k, p, i, PQ.Empty(), map[], [Defer(w)] + ([Exit] + [Clear]));
    Deferring(k, p, i, PQ.Empty(), map[], w, q, [Exit] + [Clear]);
    Leaving(k, p, i, q, map[], [Clear]);
    Clears(k, q, map[]);
  }

  // A late alarm

  /** Handler `i` runs over a thread that does not hold the word. */
  function InHandler(k: State, i: nat, word: Holder, saves: seq<Holder>, p: Phase, d: map<nat, nat>): Sys {
    Sys(k, word, [Ctx(None, [], Working), Ctx(Some(i), saves, p)], PQ.Empty(), d, {})
  }

  /** A handler finds the word free and asks to be woken. */
  lemma AsksForWakeup(k: State, i: nat, at: nat, rest: seq<Act>)
    requires k.sleep == []
    ensures var acts := [Enter(i)] + ([Take] + ([Op(DoIrqSleep(i, at))] + rest));
      var r := InHandler(Timers.Asleep(k, i, at), i, ByIrq(i), [Free], Working, map[i := at]);
      Run(Boot(k), acts) == Run(r, rest) && Possible(Boot(k), acts) == Possible(r, rest)
  {
    hide Possible, Run, Sound, Step;
    var s1 := InHandler(k, i, Free, [], Working, map[]);
    var s2 := InHandler(k, i, ByIrq(i), [Free], Working, map[]);
    Timers.FallsAsleep(k, i, at);
    assert [] + [Free] == [Free];
    assert s1.ctx[1 := Ctx(Some(i), [Free], Working)] == s2.ctx;
    StepTo(Boot(k), Enter(i), [Take] + ([Op(DoIrqSleep(i, at))] + rest), s1);
    StepTo(s1, Take, [Op(DoIrqSleep(i, at))] + rest, s2);
    var s3 := InHandler(Timers.Asleep(k, i, at), i, ByIrq(i), [Free], Working, map[i := at]);
    StepTo(s2, Op(DoIrqSleep(i, at)), rest, s3);
  }

  /** A handler releases the word, with nothing pending, and exits. */
  lemma ReleasesAndExits(k: State, i: nat, d: map<nat, nat>, rest: seq<Act>)
    ensures var s, r := InHandler(k, i, ByIrq(i), [Free], Working, d), Boot(k).(deadline := d);
      var acts := [Drop] + ([Drain] + ([Drain] + ([Clear] + ([Exit] + rest))));
      Run(s, acts) == Run(r, rest) && Possible(s, acts) == Possible(r, rest)
  {
    hide Possible, Run, Sound;
    var s3 := InHandler(k, i, ByIrq(i), [Free], Working, d);
    var s4 := InHandler(k, i, ByIrq(i), [Free], Clearing(NOTHING, NOTHING), d);
    var s5 := InHandler(k, i, Free, [], Working, d);
    assert s3.ctx[1 := s4.ctx[1]] == s4.ctx;
    ReachClear(s3, [Clear] + ([Exit] + rest));
    assert Pop([Free]) == [];
    assert s4.ctx[1 := Ctx(Some(i), [], Working)] == s5.ctx;
    StepTo(s4, Clear, [Exit] + rest, s5);
    assert Pop(s5.ctx) == [Ctx(None, [], Working)];
    StepTo(s5, Exit, rest, Boot(k).(deadline := d));
  }

  /** The kernel once that handler has been given another deadline. */
  function Moved(k: State, i: nat, first: nat, at: nat): State {
    Timers.Asleep(k, i, first).(sleep := [Sleeper(Irq(i), at)])
  }

  /** A handler writes another deadline. */
  lemma Writes(k: State, p: Phase, i: nat, first: nat, at: nat, rest: seq<Act>)
    ensures var s := Held(Timers.Asleep(k, i, first), p, Some(i), PQ.Empty(), map[i := first]);
      var r := Held(Moved(k, i, first, at), p, Some(i), PQ.Empty(), map[i := at]);
      Run(s, [Write(i, at)] + rest) == Run(r, rest) && Possible(s, [Write(i, at)] + rest) == Possible(r, rest)
  {
    hide Possible, Run, Sound, PQ.Empty;
    assert Timers.SetDeadline([Sleeper(Irq(i), first)], i, at) == [Sleeper(Irq(i), at)];
    assert map[i := first][i := at] == map[i := at];
    StepTo(Held(Timers.Asleep(k, i, first), p, Some(i), PQ.Empty(), map[i := first]), Write(i, at), rest,
        Held(Moved(k, i, first, at), p, Some(i), PQ.Empty(), map[i := at]));
  }

  /** It fails to take the word and defers its request. */
  lemma DefersSleep(k: State, p: Phase, i: nat, d: map<nat, nat>, rest: seq<Act>)
    requires i in d
    ensures var s, r := Held(k, p, Some(i), PQ.Empty(), d), Held(k, p, Some(i), One(PQ.Sleeps, Irq(i)), d);
      && Run(s, [DeferSleep(i)] + rest) == Run(r, rest)
      && Possible(s, [DeferSleep(i)] + rest) == Possible(r, rest)
  {
    hide Possible, Run, Sound, PQ.Push, PQ.Good, PQ.Empty, One;
    OneGood(PQ.Sleeps, Irq(i));
    StepTo(Held(k, p, Some(i), PQ.Empty(), d), DeferSleep(i), rest, Held(k, p, Some(i), One(PQ.Sleeps, Irq(i)), d));
  }

  /** On any kernel without sleepers: a handler goes to sleep, and later, between the drains of a release
      and its clear, is given an earlier deadline. The write fits, but the request is deferred past that
      release, and with the word free the alarm is later than the deadline of the only sleeper. */
  lemma LateAlarmOutlivesRelease(k: State, i: nat, first: nat, at: nat)
    requires k.sleep == [] && at < first
    ensures var release := [Take] + ([Drop] +
      ([Drain] + ([Drain] + ([Enter(i)] + ([Write(i, at)] + ([DeferSleep(i)] + ([Exit] + [Clear])))))));
      var acts := [Enter(i)] + ([Take] + ([Op(DoIrqSleep(i, first))] +
          ([Drop] + ([Drain] + ([Drain] + ([Clear] + ([Exit] + release)))))));
      && Possible(Boot(k), acts) && Run(Boot(k), acts).Fine?
      && var r := Run(Boot(k), acts).s;
      && r.word == Free && r.k.sleep == [Sleeper(Irq(i), at)] && r.k.alarm == Some(first)
      && PQ.Items(r.q, PQ.Sleeps) == [AQ.Link(Irq(i))] && !KernelInvariants.NeverLate(r.k.sleep, r.k.alarm)
  {
    hide Possible, Run, Sound, PQ.Push, PQ.Good, PQ.Pop;
    var p, q := Clearing(NOTHING, NOTHING), One(PQ.Sleeps, Irq(i));
    var k1, k2 := Timers.Asleep(k, i, first), Moved(k, i, first, at);
    var late := [Write(i, at)] + ([DeferSleep(i)] + ([Exit] + [Clear]));
    OneGood(PQ.Sleeps, Irq(i));
    var release := [Take] + ([Drop] + ([Drain] + ([Drain] + ([Enter(i)] + late))));
    AsksForWakeup(k, i, first, [Drop] + ([Drain] + ([Drain] + ([Clear] + ([Exit] + release)))));
    ReleasesAndExits(k1, i, map[i := first], release);
    ThreadReachesClear(k1, map[i := first], [Enter(i)] + late);
    Arriving(k1, p, i, PQ.Empty(), map[i := first], late);
    Writes(k, p, i, first, at, [DeferSleep(i)] + ([Exit] + [Clear]));
    DefersSleep(k2, p, i, map[i := at], [Exit] + [Clear]);
    Leaving(k2, p, i, q, map[i := at], [Clear]);
    Clears(k2, q, map[i := at]);
  }
}
