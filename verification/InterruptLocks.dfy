/** Ceiling locks in threads and nested interrupt handlers over the controller's threshold register. A
    lock operation changes the lock list and the lock priorities first and writes the register in a
    later step, so an interrupt may be taken in between. */
module InterruptLocks {
  import opened Lists
  import opened Kernel
  import KI = KernelInvariants
  import KR = KernelRuns
  import ME = MutualExclusion
  import PL = PreemptLock
  import CE = CeilingCounterexamples

  /** What a context still has to write to the register: nothing, or the outcome of listing or
      unlisting a scoped lock or of entering or leaving a section. */
  datatype Due = Settled | Listing(l: Lock) | Unlisting | Entering | Leaving

  /** The value a thread last wrote to the register and what it has yet to write. */
  datatype Reg = Reg(written: nat, due: Due)

  /** A running handler. `section` starts at the handler's own priority; `restore` is the threshold
      that its completion writes back. */
  datatype Handler = Handler(
    level: nat, section: Prio, owned: Prio, locks: seq<Lock>, frames: seq<Frame>, written: nat, due: Due, restore: nat)

  /** The kernel, the registers of its threads, the handlers running on top of the current thread,
      innermost last, and the threshold: only interrupts above it are taken. */
  datatype Sys = Sys(k: State, regs: map<Tid, Reg>, hs: seq<Handler>, threshold: nat)

  datatype Act =
    | InThread(a: Action) | InHandler(a: Action) | Write
    | Claim(level: nat) | Complete
    | Take(l: Lock) | Drop(l: Lock) | Enter(c: Prio) | Leave

  datatype Why = AboveCeiling | LockListed | LockNotListed | KernelHalt | Unbalanced

  datatype Result = Fine(s: Sys) | Stop(why: Why)

  function RegOf(s: Sys, t: Tid): Reg { if t in s.regs then s.regs[t] else Reg(0, Settled) }

  function Base(h: Handler): Prio { INTERRUPT_BIT + h.level }

  function LockOf(h: Handler): Prio { Max(h.section, h.owned) }

  function Priority(h: Handler): Prio { Max(Base(h), LockOf(h)) }

  function Top(s: Sys): Handler
    requires s.hs != []
  {
    s.hs[|s.hs| - 1]
  }

  function PutTop(s: Sys, h: Handler): Sys
    requires s.hs != []
  {
    s.(hs := s.hs[|s.hs| - 1 := h])
  }

  /** A handler with new lock priorities, whose threshold is yet to be written. */
  function Relocked(h: Handler, locks: seq<Lock>, frames: seq<Frame>, section: Prio, due: Due): Handler {
    var owned := if locks == [] then NONE else locks[0].ceiling;
    h.(locks := locks, frames := frames, section := section, owned := owned, due := due)
  }

  /** A lock's list node is in the list of the thread or handler that holds it. */
  ghost predicate InUse(s: Sys, l: Lock) {
    l in s.k.owner || exists i :: 0 <= i < |s.hs| && l in Elems(s.hs[i].locks)
  }

  function DueOf(k: State, a: Action): Due {
    match a
    case DoAcquire(l) => Listing(l)
    case DoRelease(l) => if l in k.owner then Unlisting else Settled
    case DoEnter(_) => Entering
    case DoLeave => Leaving
    case _ => Settled
  }

  /** A thread's step: a lock operation leaves the register alone, and after a switch the register is
      the one the new thread had written. */
  function ThreadStep(s: Sys, k: State, a: Action): Sys {
    if KR.Locking(a) then s.(k := k, regs := s.regs[s.k.current := RegOf(s, s.k.current).(due := DueOf(s.k, a))])
    else s.(k := k, threshold := RegOf(s, k.current).written)
  }

  function Written(s: Sys): Sys {
    if s.hs == [] then
      var v := Get(s.k.th, s.k.current).threshold;
      s.(regs := s.regs[s.k.current := Reg(v, Settled)], threshold := v)
    else
      var v := Level(LockOf(Top(s)));
      PutTop(s, Top(s).(written := v, due := Settled)).(threshold := v)
  }

  function Claimed(s: Sys, level: nat): Sys {
    s.(hs := s.hs + [Handler(level, INTERRUPT_BIT + level, NONE, [], [], level, Settled, s.threshold)],
        threshold := level)
  }

  function Completed(s: Sys): Sys
    requires s.hs != []
  {
    var hs := s.hs[..|s.hs| - 1];
    s.(hs := hs, threshold := if hs == [] then RegOf(s, s.k.current).written else Top(s).restore)
  }

  ghost function Next(s: Sys, a: Act): Result {
    match a
    case InThread(b) => (match Step(s.k, b) case Ok(k) => Fine(ThreadStep(s, k, b)) case Halt(_) => Stop(KernelHalt))
    case InHandler(b) => (match Step(s.k, b) case Ok(k) => Fine(s.(k := k)) case Halt(_) => Stop(KernelHalt))
    case Write => Fine(Written(s))
    case Claim(level) => Fine(Claimed(s, level))
    case Complete => if s.hs == [] then Stop(Unbalanced) else Fine(Completed(s))
    case Take(l) =>
      if s.hs == [] then Stop(Unbalanced) else
      if Priority(Top(s)) > l.ceiling then Stop(AboveCeiling) else
      if InUse(s, l) then Stop(LockListed) else
      var h := Top(s);
      Fine(PutTop(s, Relocked(h, InsertAfter(h.locks, l, LockAfter(l)), h.frames, h.section, Listing(l))))
    case Drop(l) =>
      if s.hs == [] then Stop(Unbalanced) else
      if l !in Elems(Top(s).locks) then Stop(LockNotListed) else
      var h := Top(s);
      Fine(PutTop(s, Relocked(h, Without(h.locks, l), h.frames, h.section, Unlisting)))
    case Enter(c) =>
      if s.hs == [] then Stop(Unbalanced) else
      var h := Top(s);
      Fine(PutTop(s, Relocked(h, h.locks, h.frames + [Frame(c, h.section)], Max(h.section, Max(c, Base(h))), Entering)))
    case Leave =>
      if s.hs == [] || Top(s).frames == [] then Stop(Unbalanced) else
      var h, n := Top(s), |Top(s).frames| - 1;
      Fine(PutTop(s, Relocked(h, h.locks, h.frames[..n], h.frames[n].saved, Leaving)))
  }

  function TopDue(s: Sys): Due { if s.hs == [] then RegOf(s, s.k.current).due else Top(s).due }

  /** A context writes the register before it does anything else. Threads run when no handler does and
      keep to the locking discipline; while one lists or unlists a lock it holds the preemption lock,
      so handlers leave the scheduler alone. Handlers are only entered above the threshold and
      complete with nothing held. */
  predicate Can(s: Sys, a: Act) {
    match a
    case InThread(b) => s.hs == [] && TopDue(s) == Settled && Valid(b) && ME.Keeps(s.k, b)
    case InHandler(b) =>
      && s.hs != [] && TopDue(s) == Settled && Valid(b) && !KR.Locking(b) && ME.Keeps(s.k, b)
      && (PL.Touches(b) ==> !RegOf(s, s.k.current).due.Listing? && !RegOf(s, s.k.current).due.Unlisting?)
    case Write => TopDue(s) != Settled
    case Claim(level) => level > s.threshold
    case Complete => s.hs != [] && TopDue(s) == Settled && Top(s).locks == [] && Top(s).frames == []
    case Enter(c) => s.hs != [] && TopDue(s) == Settled && c >= MIN
    case Take(l) => s.hs != [] && TopDue(s) == Settled && l.ceiling >= MIN
    case _ => s.hs != [] && TopDue(s) == Settled
  }

  // Invariant

  /** The section priority of a handler: its own priority raised by the live sections. */
  function SectionOf(base: Prio, frames: seq<Frame>): Prio {
    Max(base, KI.SectionPrio(base, frames))
  }

  /** Each live section will restore the priority that held before it. */
  ghost predicate Restores(base: Prio, frames: seq<Frame>) {
    forall i :: 0 <= i < |frames| ==> frames[i].saved == SectionOf(base, frames[..i])
  }

  ghost predicate Exact(h: Handler) {
    && h.section == SectionOf(Base(h), h.frames)
    && Restores(Base(h), h.frames)
    && h.owned == (if h.locks == [] then NONE else h.locks[0].ceiling)
    && NoDup(h.locks) && Desc(h.locks, KI.CeilingKey())
  }

  /** Every lock but the one being listed, and every section but the one being entered, lies at or
      under `bound`. */
  ghost predicate Under(locks: seq<Lock>, frames: seq<Frame>, due: Due, bound: int) {
    && (forall m :: m in Elems(locks) ==> m.ceiling <= bound || due == Listing(m))
    && (forall i :: 0 <= i < |frames| ==> frames[i].ceiling <= bound || (due == Entering && i == |frames| - 1))
  }

  ghost predicate Guarded(locks: seq<Lock>, frames: seq<Frame>, written: nat, due: Due) {
    Under(locks, frames, due, INTERRUPT_BIT + written) && (due.Listing? ==> due.l in Elems(locks))
  }

  ghost predicate HandlerOk(h: Handler) {
    && Exact(h) && h.written >= h.level && Guarded(h.locks, h.frames, h.written, h.due)
    && (h.due == Settled ==> h.written == Level(LockOf(h)))
  }

  ghost predicate ThreadOk(x: Thread, r: Reg) {
    Guarded(x.locks, x.frames, r.written, r.due) && (r.due == Settled ==> r.written == x.threshold)
  }

  /** A handler was taken above what everything under it had written. */
  ghost predicate Nested(s: Sys) {
    && (forall i, j :: 0 <= i < j < |s.hs| ==> s.hs[i].written < s.hs[j].level)
    && (s.hs != [] ==> forall t ::
          Under(Get(s.k.th, t).locks, Get(s.k.th, t).frames, RegOf(s, t).due, Base(s.hs[0]) - 1))
  }

  ghost predicate Threshold(s: Sys) {
    && s.threshold == (if s.hs == [] then RegOf(s, s.k.current).written else Top(s).written)
    && forall i :: 0 < i < |s.hs| ==> s.hs[i].restore == s.hs[i - 1].written
  }

  /** Threads have thread priorities. */
  ghost predicate ThreadBases(th: Threads) { forall t :: Get(th, t).base < INTERRUPT_BIT }

  ghost predicate Inv(s: Sys) {
    && KI.Inv(s.k) && ME.Safe(s.k) && ThreadBases(s.k.th)
    && (forall t :: ThreadOk(Get(s.k.th, t), RegOf(s, t)))
    && (forall i :: 0 <= i < |s.hs| ==> HandlerOk(s.hs[i]))
    && Nested(s) && Threshold(s)
  }

  // Priorities

  /** The priority of a handler is the maximum of its own, its sections and its locks. */
  lemma HandlerPriorityExact(h: Handler)
    requires Exact(h)
    ensures Priority(h) == LockOf(h) >= Base(h)
    ensures forall i :: 0 <= i < |h.frames| ==> h.frames[i].ceiling <= Priority(h)
    ensures forall i :: 0 <= i < |h.locks| ==> h.locks[i].ceiling <= Priority(h)
    ensures Priority(h) == Base(h)
            || (exists i :: 0 <= i < |h.frames| && h.frames[i].ceiling == Priority(h))
            || (exists i :: 0 <= i < |h.locks| && h.locks[i].ceiling == Priority(h))
  {
    KI.SectionIsMax(Base(h), h.frames);
    forall i | 0 <= i < |h.locks| ensures h.locks[i].ceiling <= h.owned {
      assert i > 0 ==> KI.CeilingKey()(h.locks[0]) >= KI.CeilingKey()(h.locks[i]);
    }
    if h.owned > h.section { assert h.locks[0].ceiling == Priority(h); }
  }

  /** What the lock priority bounds, the threshold that follows from it bounds too. */
  lemma LevelBounds(c: Prio)
    ensures c <= INTERRUPT_BIT + Level(c)
  {
  }

  lemma SettledGuards(x: Thread)
    requires KI.Exact(x)
    ensures Under(x.locks, x.frames, Settled, LockPrio(x))
      && Under(x.locks, x.frames, Settled, INTERRUPT_BIT + x.threshold)
  {
    hide KI.Exact, Elems;
    KI.ActiveIsMax(x);
    LevelBounds(LockPrio(x));
    forall m | m in Elems(x.locks) ensures m.ceiling <= LockPrio(x) { var i := ElemsAt(x.locks, m); }
  }

  // Steps of threads

  /** What a lock operation does to the running thread; nobody else changes. */
  ghost predicate Operated(k: State, a: Action, x: Thread, y: Thread) {
    match a
    case DoAcquire(l) => Elems(y.locks) == Elems(x.locks) + {l} && y.frames == x.frames
    case DoRelease(l) => Elems(y.locks) <= Elems(x.locks) && y.frames == x.frames && (l !in k.owner ==> y == x)
    case DoEnter(c) => y.locks == x.locks && |y.frames| == |x.frames| + 1 && y.frames[..|x.frames|] == x.frames
    case DoLeave => y.locks == x.locks && |x.frames| > 0 && y.frames == x.frames[..|x.frames| - 1]
    case _ => true
  }

  lemma SetLocksGet(k: State, locks: seq<Lock>, frames: seq<Frame>, section: Prio)
    ensures var r := SetLocks(k, locks, frames, section);
      && r.current == k.current && (forall t :: t != k.current ==> Get(r.th, t) == Get(k.th, t))
      && Get(r.th, k.current).locks == locks && Get(r.th, k.current).frames == frames
  {
  }

  lemma AcquireShape(k: State, l: Lock)
    requires KI.Exact(Get(k.th, k.current)) && Acquire(k, l).Ok?
    ensures Shaped(k, DoAcquire(l), Acquire(k, l).s)
  {
    var x := Get(k.th, k.current);
    hide SetLocks, InsertAfter, Elems, NoDup, KI.Exact, LockAfter;
    InsertElems(x.locks, l, LockAfter(l));
    SetLocksGet(k, InsertAfter(x.locks, l, LockAfter(l)), x.frames, x.section);
  }

  lemma ReleaseShape(k: State, l: Lock)
    requires KI.Exact(Get(k.th, k.current)) && Release(k, l).Ok?
    ensures Shaped(k, DoRelease(l), Release(k, l).s)
  {
    var x := Get(k.th, k.current);
    hide SetLocks, Without, Elems, NoDup;
    WithoutElems(x.locks, l);
    SetLocksGet(k, Without(x.locks, l), x.frames, x.section);
  }

  lemma SectionShape(k: State, c: Prio)
    ensures Shaped(k, DoEnter(c), EnterSection(k, c))
    ensures LeaveSection(k).Ok? ==> Shaped(k, DoLeave, LeaveSection(k).s)
  {
    var x := Get(k.th, k.current);
    var f, n := x.frames + [Frame(c, x.section)], |x.frames| - 1;
    assert f[..|x.frames|] == x.frames;
    SetLocksGet(k, x.locks, f, Max(x.section, Max(c, x.base)));
    if n >= 0 { SetLocksGet(k, x.locks, x.frames[..n], x.frames[n].saved); }
    hide SetLocks, Elems;
  }

  ghost predicate Shaped(k: State, a: Action, r: State) {
    && r.current == k.current && (forall t :: t != k.current ==> Get(r.th, t) == Get(k.th, t))
    && Operated(k, a, Get(k.th, k.current), Get(r.th, k.current))
  }

  lemma LockingShape(k: State, a: Action)
    requires KI.Inv(k) && Step(k, a).Ok? && KR.Locking(a)
    ensures Shaped(k, a, Step(k, a).s)
  {
    hide KI.Inv, Shaped, Acquire, Release, EnterSection, LeaveSection, KI.Exact;
    ExactCurrent(k);
    match a
    case DoAcquire(l) => AcquireShape(k, l);
    case DoRelease(l) => ReleaseShape(k, l);
    case DoEnter(c) => SectionShape(k, c);
    case DoLeave => SectionShape(k, MIN);
  }

  lemma OperatedOk(k: State, a: Action, x: Thread, y: Thread, written: nat)
    requires KI.Exact(x) && written == x.threshold && KR.Locking(a) && Operated(k, a, x, y)
    ensures ThreadOk(y, Reg(written, DueOf(k, a)))
  {
    SettledGuards(x);
    hide KI.Exact, Elems;
    if a.DoEnter? {
      assert forall i :: 0 <= i < |x.frames| ==> y.frames[i] == y.frames[..|x.frames|][i];
    }
  }

  /** One thread's record and register change while no handler runs. */
  lemma OneThreadInv(s: Sys, r: Sys)
    requires Inv(s) && s.hs == [] && r.hs == [] && r.k.current == s.k.current
    requires KI.Inv(r.k) && ME.Safe(r.k) && ThreadBases(r.k.th)
    requires forall t :: t != s.k.current ==> Get(r.k.th, t) == Get(s.k.th, t) && RegOf(r, t) == RegOf(s, t)
    requires ThreadOk(Get(r.k.th, s.k.current), RegOf(r, s.k.current)) && r.threshold == RegOf(r, s.k.current).written
    ensures Inv(r)
  {
    hide KI.Inv, ME.Safe, ThreadOk, ThreadBases;
    forall t ensures ThreadOk(Get(r.k.th, t), RegOf(r, t)) {
      assert ThreadOk(Get(s.k.th, t), RegOf(s, t));
    }
  }

  /** What a locking action keeps of the kernel and of the thread that takes it. */
  lemma LockingKernel(k: State, a: Action)
    requires KI.Inv(k) && ME.Safe(k) && ThreadBases(k.th) && Valid(a) && ME.Keeps(k, a) && Step(k, a).Ok?
    ensures KI.Inv(Step(k, a).s) && ME.Safe(Step(k, a).s) && ThreadBases(Step(k, a).s.th)
  {
    hide KI.Inv, ME.Safe, Step, ME.Keeps;
    KI.StepInv(k, a);
    ME.StepSafeIff(k, a);
    KR.BaseKept(k, a);
  }

  /** The registers after a locking action: only the current thread's due changes. */
  lemma LockingRegs(s: Sys, k: State, a: Action)
    requires KR.Locking(a)
    ensures var r, t := ThreadStep(s, k, a), s.k.current;
      && r == s.(k := k, regs := r.regs) && RegOf(r, t) == Reg(RegOf(s, t).written, DueOf(s.k, a))
      && (forall u :: u != t ==> RegOf(r, u) == RegOf(s, u))
  {
    hide DueOf;
  }

  /** Where a locking action of a thread starts from. */
  lemma LockingStart(s: Sys, a: Action)
    requires Inv(s) && Can(s, InThread(a))
    ensures s.hs == [] && Valid(a) && ME.Keeps(s.k, a) && KI.Inv(s.k) && ME.Safe(s.k) && ThreadBases(s.k.th)
    ensures var t := s.k.current;
      s.threshold == RegOf(s, t).written == Get(s.k.th, t).threshold && KI.Exact(Get(s.k.th, t))
  {
    hide KI.Inv, ME.Safe, ME.Keeps, Guarded, KI.Exact, ThreadBases, HandlerOk, Nested;
    assert ThreadOk(Get(s.k.th, s.k.current), RegOf(s, s.k.current));
    ExactCurrent(s.k);
  }

  lemma LockingInv(s: Sys, a: Action)
    requires Inv(s) && Can(s, InThread(a)) && Step(s.k, a).Ok? && KR.Locking(a)
    ensures Inv(ThreadStep(s, Step(s.k, a).s, a))
  {
    hide Inv, Can, KI.Inv, ME.Safe, Step, ME.Keeps, KI.Exact, Operated, DueOf, ThreadBases, ThreadOk, ThreadStep, RegOf;
    var k, t := Step(s.k, a).s, s.k.current;
    LockingStart(s, a);
    LockingKernel(s.k, a);
    LockingShape(s.k, a);
    LockingRegs(s, k, a);
    OperatedOk(s.k, a, Get(s.k.th, t), Get(k.th, t), RegOf(s, t).written);
    OneThreadInv(s, ThreadStep(s, k, a));
  }

  lemma ExactCurrent(k: State)
    requires KI.Inv(k)
    ensures KI.Exact(Get(k.th, k.current))
  {
    KI.CurrentKnown(k);
  }

  lemma ScheduledOk(s: Sys, k: State)
    requires (forall t :: ThreadOk(Get(s.k.th, t), RegOf(s, t))) && KI.OnlyStates(s.k.th, k.th)
    ensures forall t :: ThreadOk(Get(k.th, t), RegOf(s, t))
    ensures forall t :: Get(k.th, t).locks == Get(s.k.th, t).locks && Get(k.th, t).frames == Get(s.k.th, t).frames
  {
    hide Guarded;
    forall t ensures ThreadOk(Get(k.th, t), RegOf(s, t)) {
      assert ThreadOk(Get(s.k.th, t), RegOf(s, t));
      assert Get(k.th, t) == Get(s.k.th, t).(state := Get(k.th, t).state);
    }
  }

  lemma SchedulingInv(s: Sys, a: Act)
    requires Inv(s) && Can(s, a) && (a.InThread? || a.InHandler?) && Step(s.k, a.a).Ok? && !KR.Locking(a.a)
    ensures Inv(Next(s, a).s)
  {
    hide KI.Inv, ME.Safe, Step, ME.Keeps, Guarded, HandlerOk, KI.OnlyStates, Under;
    KI.StepInv(s.k, a.a);
    ME.StepSafeIff(s.k, a.a);
    KR.BaseKept(s.k, a.a);
    KR.SchedulingOnlyStates(s.k, a.a);
    ScheduledOk(s, Step(s.k, a.a).s);
  }

  // The register and the handler stack

  lemma WriteInv(s: Sys)
    requires Inv(s) && Can(s, Write)
    ensures Inv(Written(s))
  {
    if s.hs == [] {
      WriteThreadInv(s);
    } else {
      hide KI.Inv, ME.Safe;
      var h := Top(s);
      assert HandlerOk(h);
      WrittenOk(h);
      PutTopInv(s, h.(written := Level(LockOf(h)), due := Settled), Level(LockOf(h)));
    }
  }

  lemma WriteThreadInv(s: Sys)
    requires Inv(s) && s.hs == []
    ensures Inv(Written(s))
  {
    hide KI.Inv, ME.Safe, KI.Exact, ThreadOk, Under;
    var x := Get(s.k.th, s.k.current);
    ExactCurrent(s.k);
    SettledGuards(x);
    WrittenThread(x);
    OneThreadInv(s, Written(s));
  }

  lemma WrittenThread(x: Thread)
    requires Under(x.locks, x.frames, Settled, INTERRUPT_BIT + x.threshold)
    ensures ThreadOk(x, Reg(x.threshold, Settled))
  {
  }

  lemma WrittenOk(h: Handler)
    requires HandlerOk(h)
    ensures HandlerOk(h.(written := Level(LockOf(h)), due := Settled))
  {
    HandlerPriorityExact(h);
    LevelBounds(LockOf(h));
    hide Exact;
    forall m | m in Elems(h.locks) ensures m.ceiling <= LockOf(h) { var i := ElemsAt(h.locks, m); }
    var g := h.(written := Level(LockOf(h)), due := Settled);
    assert Exact(g) by { ExactAny(h, g); }
  }

  lemma ExactAny(h: Handler, g: Handler)
    requires Exact(h) && g.level == h.level && g.section == h.section && g.owned == h.owned && g.locks == h.locks
      && g.frames == h.frames
    ensures Exact(g)
  {
  }

  /** A change of the top handler that keeps its level and restore value. */
  lemma PutTopInv(s: Sys, h: Handler, threshold: nat)
    requires Inv(s) && s.hs != [] && HandlerOk(h) && h.level == Top(s).level && h.restore == Top(s).restore
      && h.written == threshold
    ensures Inv(PutTop(s, h).(threshold := threshold))
  {
    hide KI.Inv, ME.Safe, HandlerOk, ThreadOk, Under;
    var r, n := PutTop(s, h).(threshold := threshold), |s.hs| - 1;
    assert forall i :: 0 <= i < n ==> r.hs[i] == s.hs[i];
    assert forall t :: RegOf(r, t) == RegOf(s, t);
    assert Base(r.hs[0]) == Base(s.hs[0]);
  }

  lemma NewHandlerOk(level: nat, restore: nat)
    ensures HandlerOk(Handler(level, INTERRUPT_BIT + level, NONE, [], [], level, Settled, restore))
  {
  }

  /** Threads other than the running one hold thread ceilings only. */
  lemma OthersBelow(k: State, t: Tid)
    requires KI.Inv(k) && ME.Safe(k) && ThreadBases(k.th) && t != k.current
    ensures Under(Get(k.th, t).locks, Get(k.th, t).frames, Settled, INTERRUPT_BIT - 1)
  {
    var x := Get(k.th, t);
    if t in k.th {
      assert KI.Exact(x);
      SettledGuards(x);
      KI.ActiveIsMax(x);
      hide KI.Exact, KI.Inv;
    }
  }

  /** An interrupt above the threshold outranks every ceiling held below it, except that of a lock that
      the interrupted context is just listing or of a section it is just entering. */
  lemma ClaimOutranks(s: Sys, level: nat)
    requires Inv(s) && level > s.threshold
    ensures forall i :: 0 <= i < |s.hs| ==>
      Under(s.hs[i].locks, s.hs[i].frames, s.hs[i].due, INTERRUPT_BIT + level - 1) && s.hs[i].written < level
    ensures forall t :: Under(Get(s.k.th, t).locks, Get(s.k.th, t).frames, RegOf(s, t).due, INTERRUPT_BIT + level - 1)
  {
    hide KI.Inv, ME.Safe, Exact, Elems;
    if s.hs == [] {
      forall t ensures Under(Get(s.k.th, t).locks, Get(s.k.th, t).frames, RegOf(s, t).due, INTERRUPT_BIT + level - 1) {
        assert ThreadOk(Get(s.k.th, t), RegOf(s, t));
        if t != s.k.current { OthersBelow(s.k, t); }
      }
    } else {
      assert HandlerOk(s.hs[0]) && HandlerOk(Top(s));
      forall i | 0 <= i < |s.hs| ensures s.hs[i].written < level
          && Under(s.hs[i].locks, s.hs[i].frames, s.hs[i].due, INTERRUPT_BIT + level - 1) {
        assert HandlerOk(s.hs[i]);
        if i < |s.hs| - 1 { assert s.hs[i].written < Top(s).level; }
      }
    }
  }

  lemma ClaimInv(s: Sys, level: nat)
    requires Inv(s) && Can(s, Claim(level))
    ensures Inv(Claimed(s, level))
  {
    hide KI.Inv, ME.Safe, HandlerOk, ThreadOk, Under;
    ClaimOutranks(s, level);
    NewHandlerOk(level, s.threshold);
    var r := Claimed(s, level);
    assert forall t :: RegOf(r, t) == RegOf(s, t);
  }

  lemma CompleteInv(s: Sys)
    requires s.hs != [] && Inv(s) && Can(s, Complete)
    ensures Inv(Completed(s))
  {
    hide KI.Inv, ME.Safe, HandlerOk, ThreadOk, Under;
    var r := Completed(s);
    assert forall t :: RegOf(r, t) == RegOf(s, t);
  }

  // Steps of handlers

  lemma LockOk(h: Handler, a: Act)
    requires HandlerOk(h) && h.due == Settled && (a.Take? || a.Drop?)
    requires a.Take? ==> a.l !in Elems(h.locks)
    ensures var locks := if a.Take? then InsertAfter(h.locks, a.l, LockAfter(a.l)) else Without(h.locks, a.l);
      HandlerOk(Relocked(h, locks, h.frames, h.section, if a.Take? then Listing(a.l) else Unlisting))
  {
    hide InsertAfter, Without, Desc, Elems, NoDup, Restores, SectionOf;
    if a.Take? {
      InsertElems(h.locks, a.l, LockAfter(a.l));
      InsertDesc(h.locks, a.l, LockAfter(a.l), KI.CeilingKey());
    } else {
      WithoutElems(h.locks, a.l);
      WithoutDesc(h.locks, a.l, KI.CeilingKey());
    }
  }

  lemma EnterRestores(base: Prio, frames: seq<Frame>, c: Prio)
    requires Restores(base, frames)
    ensures var f := frames + [Frame(c, SectionOf(base, frames))];
      Restores(base, f) && SectionOf(base, f) == Max(SectionOf(base, frames), Max(c, base))
  {
    var f := frames + [Frame(c, SectionOf(base, frames))];
    assert f[..|frames|] == frames;
    assert forall i :: 0 <= i < |frames| ==> f[..i] == frames[..i];
  }

  lemma LeaveRestores(base: Prio, frames: seq<Frame>)
    requires Restores(base, frames) && frames != []
    ensures var n := |frames| - 1; Restores(base, frames[..n]) && SectionOf(base, frames[..n]) == frames[n].saved
  {
    var n := |frames| - 1;
    assert forall i :: 0 <= i < n ==> frames[..n][..i] == frames[..i];
  }

  lemma EnterOk(h: Handler, c: Prio)
    requires HandlerOk(h) && h.due == Settled
    ensures HandlerOk(Relocked(h, h.locks, h.frames + [Frame(c, h.section)], Max(h.section, Max(c, Base(h))), Entering))
  {
    hide Desc, Elems, NoDup, Restores, SectionOf;
    EnterRestores(Base(h), h.frames, c);
  }

  lemma LeaveOk(h: Handler)
    requires HandlerOk(h) && h.due == Settled && h.frames != []
    ensures var n := |h.frames| - 1; HandlerOk(Relocked(h, h.locks, h.frames[..n], h.frames[n].saved, Leaving))
  {
    hide Desc, Elems, NoDup, Restores, SectionOf;
    LeaveRestores(Base(h), h.frames);
  }

  lemma HandlerInv(s: Sys, a: Act)
    requires Inv(s) && Can(s, a) && Next(s, a).Fine? && (a.Take? || a.Drop? || a.Enter? || a.Leave?)
    ensures Inv(Next(s, a).s)
  {
    hide KI.Inv, ME.Safe, ThreadOk, Nested, InsertAfter, Without, Elems, HandlerOk;
    var h := Top(s);
    assert HandlerOk(h);
    match a {
      case Take(l) => LockOk(h, a);
      case Drop(l) => LockOk(h, a);
      case Enter(c) => EnterOk(h, c);
      case Leave => LeaveOk(h);
    }
    PutTopInv(s, Top(Next(s, a).s), s.threshold);
    assert PutTop(s, Top(Next(s, a).s)).(threshold := s.threshold) == Next(s, a).s;
  }

  lemma NextInv(s: Sys, a: Act)
    requires Inv(s) && Can(s, a) && Next(s, a).Fine?
    ensures Inv(Next(s, a).s)
  {
    hide Inv, Can;
    match a
    case InThread(b) => if KR.Locking(b) { LockingInv(s, b); } else { SchedulingInv(s, a); }
    case InHandler(b) => NotLocking(s, b); SchedulingInv(s, a);
    case Write => WriteInv(s);
    case Claim(level) => ClaimInv(s, level);
    case Complete => HasHandler(s); CompleteInv(s);
    case _ => HandlerInv(s, a);
  }

  lemma HasHandler(s: Sys)
    requires Can(s, Complete)
    ensures s.hs != []
  {
  }

  lemma NotLocking(s: Sys, a: Action)
    requires Can(s, InHandler(a))
    ensures !KR.Locking(a)
  {
  }

  // Runs

  ghost function Run(s: Sys, acts: seq<Act>): Result
    decreases |acts|
  {
    if acts == [] then Fine(s) else
    match Next(s, acts[0])
    case Fine(r) => Run(r, acts[1..])
    case Stop(why) => Stop(why)
  }

  ghost predicate Possible(s: Sys, acts: seq<Act>)
    decreases |acts|
  {
    acts != [] ==> Can(s, acts[0]) && (Next(s, acts[0]).Fine? ==> Possible(Next(s, acts[0]).s, acts[1..]))
  }

  lemma {:induction false} RunInv(s: Sys, acts: seq<Act>)
    requires Inv(s) && Possible(s, acts) && Run(s, acts).Fine?
    ensures Inv(Run(s, acts).s)
    decreases |acts|
  {
    hide Inv, Can, Next;
    if acts == [] {
    } else {
      NextInv(s, acts[0]);
      RunInv(Next(s, acts[0]).s, acts[1..]);
    }
  }

  function Boot(k: State): Sys { Sys(k, map[], [], 0) }

  ghost predicate Init(k: State) {
    KI.Init(k) && ThreadBases(k.th) && forall t :: t in k.th && t != IDLE ==> k.th[t].base > MIN
  }

  lemma BootInv(k: State)
    requires Init(k)
    ensures Inv(Boot(k))
  {
    hide KI.Inv, ME.Safe;
    ME.InitSafe(k);
  }

  // Exclusion

  /** A context under the top handler is between listing `l` and writing the threshold for it. */
  ghost predicate ListedBelow(s: Sys, l: Lock) {
    || (exists t :: RegOf(s, t).due == Listing(l))
    || (exists i :: 0 <= i < |s.hs| - 1 && s.hs[i].due == Listing(l))
  }

  /** Whoever else holds a lock holds it under the top handler's own priority or is just listing it. */
  lemma HeldBelow(s: Sys, l: Lock)
    requires Inv(s) && s.hs != [] && InUse(s, l) && l !in Elems(Top(s).locks) && !ListedBelow(s, l)
    ensures l.ceiling < Base(Top(s))
  {
    hide ME.Safe, KI.Placed, KI.Ordered, KI.Sleeping, NoDup, Elems, Exact;
    var n := |s.hs| - 1;
    assert HandlerOk(s.hs[0]);
    assert 0 < n ==> s.hs[0].written < s.hs[n].level;
    if l in s.k.owner {
      var t := s.k.owner[l];
      assert KI.Owns(s.k.owner, l, t);
      assert RegOf(s, t).due != Listing(l);
      assert Under(Get(s.k.th, t).locks, Get(s.k.th, t).frames, RegOf(s, t).due, Base(s.hs[0]) - 1);
    } else {
      var j :| 0 <= j < |s.hs| && l in Elems(s.hs[j].locks);
      assert HandlerOk(s.hs[j]) && s.hs[j].written < s.hs[n].level;
    }
  }

  lemma ListedInUse(s: Sys, l: Lock)
    requires Inv(s) && ListedBelow(s, l)
    ensures InUse(s, l)
  {
    hide ME.Safe, KI.Placed, KI.Ordered, KI.Sleeping, NoDup, Elems, Exact, Nested, Under;
    if t :| RegOf(s, t).due == Listing(l) {
      assert ThreadOk(Get(s.k.th, t), RegOf(s, t));
      assert KI.Owns(s.k.owner, l, t);
    } else {
      var i :| 0 <= i < |s.hs| - 1 && s.hs[i].due == Listing(l);
      assert HandlerOk(s.hs[i]);
    }
  }

  /** A handler that passes the ceiling check fails to take a lock exactly when it holds the lock itself
      or interrupted a context between its listing of the lock and its threshold write. */
  lemma TakeFailsIff(s: Sys, l: Lock)
    requires Inv(s) && s.hs != [] && Priority(Top(s)) <= l.ceiling
    ensures Next(s, Take(l)) == Stop(LockListed) <==> l in Elems(Top(s).locks) || ListedBelow(s, l)
  {
    hide Inv, InsertAfter, Elems, LockAfter, ListedBelow, PutTop, Relocked;
    if ListedBelow(s, l) { ListedInUse(s, l); }
    else if InUse(s, l) && l !in Elems(Top(s).locks) { HeldBelow(s, l); }
  }

  /** Mutual exclusion for handlers, over every run of threads and nested handlers. */
  lemma HandlerMutualExclusion(k: State, acts: seq<Act>, l: Lock)
    requires Init(k) && Possible(Boot(k), acts) && Run(Boot(k), acts).Fine?
    ensures var s := Run(Boot(k), acts).s;
      s.hs != [] && Priority(Top(s)) <= l.ceiling ==>
        (Next(s, Take(l)) == Stop(LockListed) <==> l in Elems(Top(s).locks) || ListedBelow(s, l))
  {
    BootInv(k);
    RunInv(Boot(k), acts);
    var s := Run(Boot(k), acts).s;
    hide Inv, Run, Possible, Elems, Next, ListedBelow;
    if s.hs != [] && Priority(Top(s)) <= l.ceiling { TakeFailsIff(s, l); }
  }

  /** Every section that a thread or a preempted handler is inside of, and every lock it has finished
      taking, is under the top handler's own priority. */
  ghost predicate Protected(s: Sys)
    requires s.hs != []
  {
    && (forall t :: Under(Get(s.k.th, t).locks, Get(s.k.th, t).frames, RegOf(s, t).due, Base(Top(s)) - 1))
    && (forall i :: 0 <= i < |s.hs| - 1 ==> Under(s.hs[i].locks, s.hs[i].frames, s.hs[i].due, Base(Top(s)) - 1))
  }

  lemma UnderMore(locks: seq<Lock>, frames: seq<Frame>, due: Due, a: int, b: int)
    requires Under(locks, frames, due, a) && a <= b
    ensures Under(locks, frames, due, b)
  {
    hide Elems;
  }

  lemma InvProtected(s: Sys)
    requires Inv(s) && s.hs != []
    ensures Protected(s)
  {
    hide KI.Inv, ME.Safe, Exact, Elems, Under, ThreadOk;
    var n := |s.hs| - 1;
    assert HandlerOk(s.hs[0]);
    assert 0 < n ==> s.hs[0].written < s.hs[n].level;
    forall t ensures Under(Get(s.k.th, t).locks, Get(s.k.th, t).frames, RegOf(s, t).due, Base(Top(s)) - 1) {
      UnderMore(Get(s.k.th, t).locks, Get(s.k.th, t).frames, RegOf(s, t).due, Base(s.hs[0]) - 1, Base(Top(s)) - 1);
    }
    forall i | 0 <= i < n ensures Under(s.hs[i].locks, s.hs[i].frames, s.hs[i].due, Base(Top(s)) - 1) {
      assert HandlerOk(s.hs[i]) && s.hs[i].written < s.hs[n].level;
      UnderMore(s.hs[i].locks, s.hs[i].frames, s.hs[i].due, INTERRUPT_BIT + s.hs[i].written, Base(Top(s)) - 1);
    }
  }

  /** So it is over every run, whenever a handler runs. */
  lemma ProtectedBelow(k: State, acts: seq<Act>)
    requires Init(k) && Possible(Boot(k), acts) && Run(Boot(k), acts).Fine? && Run(Boot(k), acts).s.hs != []
    ensures Protected(Run(Boot(k), acts).s)
  {
    hide Inv, Run, Possible, Init, Protected;
    BootInv(k);
    RunInv(Boot(k), acts);
    InvProtected(Run(Boot(k), acts).s);
  }

  lemma InvThreshold(s: Sys)
    requires Inv(s)
    ensures s.threshold == (if s.hs == [] then RegOf(s, s.k.current).written else Top(s).written)
    ensures TopDue(s) == Settled && s.hs != [] ==> s.threshold == Priority(Top(s)) - INTERRUPT_BIT
    ensures TopDue(s) == Settled && s.hs == [] ==> s.threshold == Level(LockPrioOf(s.k.th, s.k.current))
  {
    hide KI.Inv, ME.Safe, Exact, Guarded, Nested;
    if s.hs != [] {
      assert HandlerOk(Top(s));
      HandlerPriorityExact(Top(s));
    } else {
      assert ThreadOk(Get(s.k.th, s.k.current), RegOf(s, s.k.current));
      ExactCurrent(s.k);
    }
  }

  /** Over every run: outside a lock operation the register is the level of the top handler's priority,
      or of the running thread's lock ceiling; inside one it is still what was written before it. */
  lemma ThresholdExact(k: State, acts: seq<Act>)
    requires Init(k) && Possible(Boot(k), acts) && Run(Boot(k), acts).Fine?
    ensures var s := Run(Boot(k), acts).s;
      && s.threshold == (if s.hs == [] then RegOf(s, s.k.current).written else Top(s).written)
      && (TopDue(s) == Settled && s.hs != [] ==> s.threshold == Priority(Top(s)) - INTERRUPT_BIT)
      && (TopDue(s) == Settled && s.hs == [] ==> s.threshold == Level(LockPrioOf(s.k.th, s.k.current)))
  {
    hide Inv, Run, Possible, Init;
    BootInv(k);
    RunInv(Boot(k), acts);
    InvThreshold(Run(Boot(k), acts).s);
  }

  // The window

  lemma StepTo(s: Sys, a: Act, rest: seq<Act>)
    requires Can(s, a) && Next(s, a).Fine?
    ensures Run(s, [a] + rest) == Run(Next(s, a).s, rest) && Possible(s, [a] + rest) == Possible(Next(s, a).s, rest)
  {
    hide Can, Next;
    assert ([a] + rest)[1..] == rest;
  }

  lemma StopAt(s: Sys, a: Act, why: Why)
    requires Can(s, a) && Next(s, a) == Stop(why)
    ensures Run(s, [a]) == Stop(why) && Possible(s, [a])
  {
    hide Can, Next;
  }

  /** In every state in which a thread may take a lock with an interrupt ceiling, an interrupt between
      its listing and its threshold write, at or below the ceiling, makes the handler's own attempt
      to take the lock panic. */
  lemma InterruptedListingPanics(s: Sys, l: Lock, level: nat)
    requires Inv(s) && Can(s, InThread(DoAcquire(l))) && Step(s.k, DoAcquire(l)).Ok?
    requires s.threshold < level && INTERRUPT_BIT + level <= l.ceiling
    ensures var acts := [InThread(DoAcquire(l))] + ([Claim(level)] + [Take(l)]);
      Possible(s, acts) && Run(s, acts) == Stop(LockListed)
  {
    hide Run, Possible, Inv, Step;
    var s1 := Next(s, InThread(DoAcquire(l))).s;
    NextInv(s, InThread(DoAcquire(l)));
    StepTo(s, InThread(DoAcquire(l)), [Claim(level)] + [Take(l)]);
    LockingShape(s.k, DoAcquire(l)) by { KernelOk(s); }
    var s2 := Claimed(s1, level);
    assert Can(s1, Claim(level));
    NextInv(s1, Claim(level));
    StepTo(s1, Claim(level), [Take(l)]);
    assert RegOf(s2, s.k.current).due == Listing(l);
    assert Top(s2).locks == [];
    TakeFailsIff(s2, l);
    StopAt(s2, Take(l), LockListed);
  }

  lemma KernelOk(s: Sys)
    requires Inv(s)
    ensures KI.Inv(s.k)
  {
  }

  /** The same for a handler that is interrupted while it takes a lock. */
  lemma InterruptedTakePanics(s: Sys, l: Lock, level: nat)
    requires Inv(s) && Can(s, Take(l)) && Next(s, Take(l)).Fine?
    requires s.threshold < level && INTERRUPT_BIT + level <= l.ceiling
    ensures var acts := [Take(l)] + ([Claim(level)] + [Take(l)]);
      Possible(s, acts) && Run(s, acts) == Stop(LockListed)
  {
    hide Run, Possible, Inv, InsertAfter;
    var s1, n := Next(s, Take(l)).s, |s.hs| - 1;
    NextInv(s, Take(l));
    StepTo(s, Take(l), [Claim(level)] + [Take(l)]);
    var s2 := Claimed(s1, level);
    assert Can(s1, Claim(level));
    NextInv(s1, Claim(level));
    StepTo(s1, Claim(level), [Take(l)]);
    assert s2.hs[n].due == Listing(l);
    TakeFailsIff(s2, l);
    StopAt(s2, Take(l), LockListed);
  }

  /** A full run into the panic, from a kernel that has just started. */
  lemma ThreadInterruptedWhileListing()
    ensures Init(CE.Boot(3, 4))
    ensures var l := Lock(0, INTERRUPT_BIT + 5);
      var acts := [InThread(DoStart(CE.LOW))] +
          ([InThread(DoExec(0))] + ([InThread(DoAcquire(l))] + ([Claim(3)] + [Take(l)])));
      Possible(Boot(CE.Boot(3, 4)), acts) && Run(Boot(CE.Boot(3, 4)), acts) == Stop(LockListed)
  {
    hide Run, Possible, Step, ME.Keeps, Inv;
    var l := Lock(0, INTERRUPT_BIT + 5);
    var k0 := CE.Boot(3, 4);
    CE.BootIsInit(3, 4);
    BootInv(k0);
    CE.LowRunsSteps(4);
    CE.LowAcquires(4, l);
    var rest := [InThread(DoAcquire(l))] + ([Claim(3)] + [Take(l)]);
    var k1 := Step(k0, DoStart(CE.LOW)).s;
    Kept(k0, k1);
    var s1 := Next(Boot(k0), InThread(DoStart(CE.LOW))).s;
    NextInv(Boot(k0), InThread(DoStart(CE.LOW)));
    StepTo(Boot(k0), InThread(DoStart(CE.LOW)), [InThread(DoExec(0))] + rest);
    var s2 := Next(s1, InThread(DoExec(0))).s;
    NextInv(s1, InThread(DoExec(0)));
    StepTo(s1, InThread(DoExec(0)), rest);
    assert s2 == Sys(CE.LowRuns(4), map[], [], 0);
    InterruptedListingPanics(s2, l, 3);
  }

  /** Starting and lock-free rescheduling are always within the discipline. */
  lemma Kept(k0: State, k1: State)
    requires !k1.toEqual
    ensures ME.Keeps(k0, DoStart(CE.LOW)) && ME.Keeps(k1, DoExec(0)) && forall k, l :: ME.Keeps(k, DoAcquire(l))
  {
  }

  // What the operations of a handler do

  /** A take succeeds exactly for a handler no more urgent than the ceiling that does not hold the lock and
      did not interrupt its listing. */
  lemma TakeSucceedsIff(s: Sys, l: Lock)
    requires Inv(s) && s.hs != []
    ensures Next(s, Take(l)) == Stop(AboveCeiling) <==> Priority(Top(s)) > l.ceiling
    ensures Next(s, Take(l)).Fine? <==>
      Priority(Top(s)) <= l.ceiling && l !in Elems(Top(s).locks) && !ListedBelow(s, l)
  {
    hide Inv, Elems, ListedBelow, InUse, InsertAfter, LockAfter, Relocked, PutTop, Priority;
    if Priority(Top(s)) <= l.ceiling { TakeFailsIff(s, l); }
  }

  /** The handler then holds the lock and runs at exactly its ceiling; nothing else changes. */
  lemma TakeEffect(s: Sys, l: Lock, r: Sys)
    requires Inv(s) && s.hs != [] && Next(s, Take(l)) == Fine(r)
    ensures r == s.(hs := r.hs) && |r.hs| == |s.hs| && r.hs[..|s.hs| - 1] == s.hs[..|s.hs| - 1]
    ensures Elems(Top(r).locks) == Elems(Top(s).locks) + {l} && Top(r).frames == Top(s).frames
    ensures Priority(Top(r)) == l.ceiling && TopDue(r) == Listing(l)
  {
    hide Inv, Elems, InUse, InsertAfter, LockAfter, Exact, HandlerOk;
    var h := Top(s);
    TopExact(s);
    TopLock(h, l);
    InsertElems(h.locks, l, LockAfter(l));
  }

  /** A drop succeeds exactly on a lock that the handler holds and takes out that lock alone. */
  lemma DropEffect(s: Sys, l: Lock)
    requires Inv(s) && s.hs != []
    ensures Next(s, Drop(l)).Fine? <==> l in Elems(Top(s).locks)
    ensures Next(s, Drop(l)).Fine? ==>
      var r := Next(s, Drop(l)).s;
      && r == s.(hs := r.hs) && |r.hs| == |s.hs| && r.hs[..|s.hs| - 1] == s.hs[..|s.hs| - 1]
      && Elems(Top(r).locks) == Elems(Top(s).locks) - {l} && Top(r).frames == Top(s).frames
  {
    hide Inv, Elems, Without, NoDup, Desc, Restores, HandlerOk;
    TopExact(s);
    WithoutElems(Top(s).locks, l);
  }

  lemma TopExact(s: Sys)
    requires Inv(s) && s.hs != []
    ensures HandlerOk(Top(s)) && Exact(Top(s))
  {
    hide KI.Inv, ME.Safe, ThreadOk, Nested, Exact, Guarded;
  }

  lemma TopLock(h: Handler, l: Lock)
    requires Exact(h) && Priority(h) <= l.ceiling
    ensures InsertAfter(h.locks, l, LockAfter(l))[0] == l && Max(Base(h), Max(h.section, l.ceiling)) == l.ceiling
  {
    hide Restores, NoDup;
  }

  lemma PutTopTwice(s: Sys, h: Handler, g: Handler)
    requires s.hs != []
    ensures PutTop(s, h).hs != [] && Top(PutTop(s, h)) == h && PutTop(PutTop(s, h), g) == PutTop(s, g)
    ensures PutTop(s, Top(s)) == s
  {
  }

  /** The threshold write of the context on top, when it is a handler. */
  lemma WrittenTop(s: Sys, h: Handler)
    requires s.hs != []
    ensures var v := Level(LockOf(h));
      Next(PutTop(s, h), Write) == Fine(PutTop(s, h.(written := v, due := Settled)).(threshold := v))
  {
    PutTopTwice(s, h, h.(written := Level(LockOf(h)), due := Settled));
  }

  /** A handler as it is outside a lock operation. */
  lemma SettledTop(s: Sys)
    requires Inv(s) && s.hs != [] && TopDue(s) == Settled
    ensures var h, v := Top(s), Level(LockOf(Top(s)));
      && h == h.(written := v, due := Settled) && s.threshold == v
      && h.owned == (if h.locks == [] then NONE else h.locks[0].ceiling)
  {
    hide Inv, Exact;
    TopExact(s);
    OwnedOf(Top(s));
    InvThreshold(s);
  }

  /** Two lock operations of a handler that change its lock record to `h1` and back, each with its
      threshold write, restore everything. */
  lemma ThereAndBack(s: Sys, a: Act, h1: Handler, b: Act, due: Due)
    requires Inv(s) && s.hs != [] && TopDue(s) == Settled && Next(s, a) == Fine(PutTop(s, h1))
    requires var v := Level(LockOf(h1)); var h2 := h1.(written := v, due := Settled);
      var s2 := PutTop(s, h2).(threshold := v);
      Next(s2, b) == Fine(PutTop(s2, h2.(locks := Top(s).locks, frames := Top(s).frames, section := Top(s).section,
                                         owned := Top(s).owned, due := due)))
    requires h1.level == Top(s).level && h1.restore == Top(s).restore
    ensures Run(s, [a, Write, b, Write]) == Fine(s)
  {
    hide Inv, Next, Run, Level;
    var h, v := Top(s), Level(LockOf(h1));
    var h2 := h1.(written := v, due := Settled);
    var h3 := h2.(locks := h.locks, frames := h.frames, section := h.section, owned := h.owned, due := due);
    SettledTop(s);
    WrittenTop(s, h1);
    var s2 := PutTop(s, h2).(threshold := v);
    WrittenTop(s2, h3);
    PutTopTwice(s, h2, h);
    assert h3.(written := Level(LockOf(h3)), due := Settled) == h;
    PutBack(s, h2, v);
    FourSteps(s, a, Write, b, Write, PutTop(s, h1), s2, PutTop(s2, h3), s);
  }

  lemma PutBack(s: Sys, h2: Handler, v: nat)
    requires s.hs != []
    ensures PutTop(s, h2).hs != []
    ensures PutTop(PutTop(s, h2).(threshold := v), Top(s)).(threshold := s.threshold) == s
  {
    PutTopTwice(s, h2, Top(s));
  }

  /** Taking a lock and dropping it again, with both threshold writes, restores everything. */
  lemma TakeThenDrop(s: Sys, l: Lock)
    requires Inv(s) && Can(s, Take(l)) && Next(s, Take(l)).Fine?
    ensures Run(s, [Take(l), Write, Drop(l), Write]) == Fine(s)
  {
    hide Inv, Elems, InsertAfter, Without, LockAfter, Run, Exact, HandlerOk;
    var h := Top(s);
    SettledTop(s);
    NotYetHeld(s, l);
    KR.WithoutInserted(h.locks, l);
    InsertElems(h.locks, l, LockAfter(l));
    var h1 := Relocked(h, InsertAfter(h.locks, l, LockAfter(l)), h.frames, h.section, Listing(l));
    PutTopTwice(s, h1.(written := Level(LockOf(h1)), due := Settled), h);
    ThereAndBack(s, Take(l), h1, Drop(l), Unlisting);
  }

  lemma NotYetHeld(s: Sys, l: Lock)
    requires s.hs != [] && Next(s, Take(l)).Fine?
    ensures l !in Elems(Top(s).locks)
  {
    hide Elems, InsertAfter;
    assert Top(s) == s.hs[|s.hs| - 1];
  }

  lemma FourSteps(s: Sys, a: Act, b: Act, c: Act, d: Act, s1: Sys, s2: Sys, s3: Sys, s4: Sys)
    requires Next(s, a) == Fine(s1) && Next(s1, b) == Fine(s2) && Next(s2, c) == Fine(s3) && Next(s3, d) == Fine(s4)
    ensures Run(s, [a, b, c, d]) == Fine(s4)
  {
    hide Next;
    assert [a, b, c, d][1..] == [b, c, d] && [b, c, d][1..] == [c, d] && [c, d][1..] == [d] && [d][1..] == [];
    assert Run(s3, [d]) == Run(s4, []);
    assert Run(s2, [c, d]) == Run(s3, [d]);
    assert Run(s1, [b, c, d]) == Run(s2, [c, d]);
  }

  /** Entering a section raises the handler to the higher of its priority and the ceiling. */
  lemma EnterEffect(s: Sys, c: Prio, r: Sys)
    requires Inv(s) && s.hs != [] && Next(s, Enter(c)) == Fine(r)
    ensures r == s.(hs := r.hs) && |r.hs| == |s.hs| && r.hs[..|s.hs| - 1] == s.hs[..|s.hs| - 1]
    ensures Priority(Top(r)) == Max(Priority(Top(s)), c) && Top(r).locks == Top(s).locks
  {
    hide Inv, Exact, HandlerOk;
    TopExact(s);
    OwnedOf(Top(s));
  }

  lemma OwnedOf(h: Handler)
    requires Exact(h)
    ensures h.owned == if h.locks == [] then NONE else h.locks[0].ceiling
  {
    hide Restores, NoDup, Desc;
  }

  /** Leaving it, with both threshold writes, restores everything. */
  lemma EnterThenLeave(s: Sys, c: Prio)
    requires Inv(s) && Can(s, Enter(c))
    ensures Run(s, [Enter(c), Write, Leave, Write]) == Fine(s)
  {
    hide Inv, Run, Exact, HandlerOk;
    var h := Top(s);
    SettledTop(s);
    var n := |h.frames|;
    var h1 := Relocked(h, h.locks, h.frames + [Frame(c, h.section)], Max(h.section, Max(c, Base(h))), Entering);
    assert h1.frames[..n] == h.frames && h1.frames[n].saved == h.section;
    PutTopTwice(s, h1.(written := Level(LockOf(h1)), due := Settled), h);
    ThereAndBack(s, Enter(c), h1, Leave, Leaving);
  }

  /** An interrupt that does nothing leaves no trace, whatever it interrupted. */
  lemma ClaimThenComplete(s: Sys, level: nat)
    requires Inv(s) && Can(s, Claim(level))
    ensures Next(s, Claim(level)) == Fine(Claimed(s, level))
    ensures Priority(Top(Claimed(s, level))) == INTERRUPT_BIT + level && Claimed(s, level).threshold == level
    ensures Can(Claimed(s, level), Complete) && Next(Claimed(s, level), Complete) == Fine(s)
  {
    hide Inv;
    InvThreshold(s);
    assert Claimed(s, level).hs[..|s.hs|] == s.hs;
  }

  /** Threads and handlers act on the one kernel; operations of handlers on their own locks leave it alone. */
  lemma KernelSees(s: Sys, a: Act)
    requires Next(s, a).Fine?
    ensures if a.InThread? || a.InHandler? then Step(s.k, a.a) == Ok(Next(s, a).s.k) else Next(s, a).s.k == s.k
  {
    hide Step, Elems, InsertAfter, Without, InUse;
  }
}
