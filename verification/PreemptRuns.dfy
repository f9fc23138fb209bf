/** What the runs of module `PreemptLock` do to the kernel under the lock: which kernel action each step is,
    that no preemption is missed, and that exactly what handlers asked for is applied. */
module PreemptRuns {
  import opened Wrappers
  import opened Lists
  import opened Kernel
  import KI = KernelInvariants
  import Preemption
  import Timers
  import PQ = PendingQueues
  import AQ = AtomicQueue
  import opened PreemptLock

  // Steps as kernel actions

  /** The check after a release turns a pending reschedule, of whatever kind, into a yield, and leaves the
      kernel alone when none is pending. */
  lemma CheckEffect(s: Sys)
    ensures var r := Checked(s);
      && (if s.k.Pending() then Step(s.k, DoYield) == Ok(r.k) else r.k == s.k)
      && (r.k.Pending() <==> s.k.Pending()) && (r.k.Pending() ==> r.k.toEqual && r.k.toHigher)
      && s.k.current !in r.due && r == s.(k := r.k, due := r.due)
  {
  }

  /** A thread that has released the word looks for a pending reschedule before anything else it does. */
  lemma ChecksFirst(s: Sys, a: Act)
    requires Top(s).irq.None? && Top(s).phase == Working && s.k.current in s.due && Can(s, a)
    ensures a.Check? || a.Enter?
  {
  }

  /** A release of the word by a thread with a reschedule pending, whatever set it, ends in a yield. */
  lemma ReleaseYields(s: Sys)
    requires Inv(s) && Can(s, Clear) && Top(s).irq.None? && s.k.Pending()
    ensures var r := Cleared(s);
      && r.word == Free && Can(r, Check) && Checked(r).word == Free
      && Checked(r).k.toEqual && Checked(r).k.toHigher
  {
    hide KI.Inv, PQ.Good;
    TopIs(s);
    SetTopAt(s, Top(s).(saves := Pop(Top(s).saves), phase := Working));
  }

  /** The kernel action that a step amounts to, if it is one. */
  ghost function KernelAction(s: Sys, a: Act): Option<Action> {
    match a
    case Op(b) => Some(b)
    case Check => if s.k.Pending() then Some(DoYield) else None
    case Drain =>
      var w := Source(Top(s).phase);
      if PQ.Items(s.q, w) == [] || PQ.Items(s.q, w)[0].Sentinel? then None
      else Some(ActionFor(s, w, PQ.Items(s.q, w)[0].w))
    case _ => None
  }

  /** Every step is that action of the kernel, or leaves the kernel alone; a deadline write reaches the
      queued entry and the cell. */
  lemma KernelSees(s: Sys, a: Act)
    requires Inv(s) && Can(s, a) && Next(s, a).Fine?
    ensures var r, b := Next(s, a).s, KernelAction(s, a);
      if a.Write? then
        r.k == s.k.(sleep := Timers.SetDeadline(s.k.sleep, a.i, a.at)) && r.deadline == s.deadline[a.i := a.at]
      else if b.Some? then
        Step(s.k, b.value) == Ok(r.k)
        && r.deadline == if b.value.DoIrqSleep? then s.deadline[b.value.i := b.value.at] else s.deadline
      else r.k == s.k && r.deadline == s.deadline
  {
    hide KI.Inv, Step, PQ.Push, PQ.Pop, PQ.Good, PQ.Items, Typed, Cells;
    if a.Check? { CheckEffect(s); }
    if a.Drain? { DrainShape(s); }
  }

  // No missed preemption

  lemma WritePrompt(k: State, sleep: seq<Sleeper>)
    requires Preemption.Prompt(k)
    ensures Preemption.Prompt(k.(sleep := sleep))
  {
    Preemption.QuietPrompt(k, k.(sleep := sleep));
  }

  /** Operations of the program keep to what the kernel needs for prompt preemption. */
  predicate KeepsPrompt(s: Sys, a: Act) { a.Op? ==> Preemption.KeepsPrompt(s.k, a.a) }

  lemma DrainedKeepsPrompt(s: Sys, w: PQ.Which, who: Who)
    ensures var b := ActionFor(s, w, who); Valid(b) && Preemption.KeepsPrompt(s.k, b)
  {
  }

  /** No step misses a preemption, except a self-suspension exactly as in the kernel alone. */
  lemma NextPromptIff(s: Sys, a: Act)
    requires Inv(s) && Can(s, a) && Next(s, a).Fine? && Preemption.Prompt(s.k)
    ensures Preemption.Prompt(Next(s, a).s.k) <==> KeepsPrompt(s, a)
  {
    hide KI.Inv, Step, Preemption.Prompt, PQ.Good, PQ.Items, Preemption.KeepsPrompt, Next, Exclusive, Conserved;
    KernelSees(s, a);
    var b := KernelAction(s, a);
    if a.Write? { WritePrompt(s.k, Timers.SetDeadline(s.k.sleep, a.i, a.at)); }
    else if b.Some? {
      ActionKeeps(s, a);
      Preemption.StepPromptIff(s.k, b.value);
    }
  }

  lemma ActionKeeps(s: Sys, a: Act)
    requires Can(s, a) && KernelAction(s, a).Some?
    ensures Valid(KernelAction(s, a).value)
    ensures !a.Op? ==> Preemption.KeepsPrompt(s.k, KernelAction(s, a).value)
  {
    hide PQ.Items, ActionFor;
    if a.Drain? {
      var w := Source(Top(s).phase);
      DrainedKeepsPrompt(s, w, PQ.Items(s.q, w)[0].w);
    }
  }

  predicate RunKeepsPrompt(s: Sys, acts: seq<Act>)
    decreases |acts|
  {
    acts != [] ==> KeepsPrompt(s, acts[0]) && (Next(s, acts[0]).Fine? ==> RunKeepsPrompt(Next(s, acts[0]).s, acts[1..]))
  }

  lemma {:induction false} PromptRun(s: Sys, acts: seq<Act>)
    requires Inv(s) && Preemption.Prompt(s.k) && Sound(s, acts) && RunKeepsPrompt(s, acts) && Run(s, acts).Fine?
    ensures Inv(Run(s, acts).s) && Preemption.Prompt(Run(s, acts).s.k)
    decreases |acts|
  {
    hide Inv, Can, Next, Careful, Preemption.Prompt, KeepsPrompt;
    if acts == [] {
    } else {
      NextInv(s, acts[0]);
      NextPromptIff(s, acts[0]);
      PromptRun(Next(s, acts[0]).s, acts[1..]);
    }
  }

  /** In every sound run, with handlers, deferral and the check after each release, a reschedule is pending
      or every ready thread is kept back. */
  lemma NoMissedPreemption(k: State, acts: seq<Act>)
    requires KI.Init(k) && Sound(Boot(k), acts) && RunKeepsPrompt(Boot(k), acts) && Run(Boot(k), acts).Fine?
    ensures var r := Run(Boot(k), acts).s.k;
      r.Pending() || forall t :: t in Elems(r.ready) ==> Preemption.KeptBack(r, t)
  {
    hide Run, Sound, KI.Inv, RunKeepsPrompt, Preemption.Prompt, Preemption.KeptBack;
    BootInv(k);
    Preemption.InitPrompt(k);
    PromptRun(Boot(k), acts);
    var r := Run(Boot(k), acts).s.k;
    assert KI.Run(r, []) == Ok(r);
    Preemption.NoMissedPreemption(r, []);
  }

  // Nesting

  /** Taking the word adds one level and gives the word to the context on top. Releasing takes one level
      off; only the last one lets the word go, and that after the drains. */
  lemma Levels(s: Sys, a: Act)
    requires Inv(s) && Can(s, a) && Next(s, a).Fine? && (a.Take? || a.Drop? || a.Clear?)
    ensures var r, n := Next(s, a).s, |Top(s).saves|;
      && Top(r).irq == Top(s).irq && r.k == s.k && r.q == s.q
      && (a.Take? ==> |Top(r).saves| == n + 1 && r.word == Owner(s.k, Top(s)) && Top(r).phase == Working)
      && (a.Drop? && n > 1 ==> |Top(r).saves| == n - 1 && r.word == s.word && Top(r).phase == Working)
      && (a.Drop? && n == 1 ==> |Top(r).saves| == 1 && r.word == s.word && Top(r).phase == DrainResumes(AllDeferred(s)))
      && (a.Clear? ==> Top(r).saves == [] && r.word == Free && Top(r).phase == Working)
  {
    hide KI.Inv, PQ.Good;
    TopIs(s);
  }

  /** A nested acquisition and its release cancel out. */
  lemma TakeThenDrop(s: Sys)
    requires Inv(s) && Can(s, Take) && s.word == Owner(s.k, Top(s))
    ensures Next(s, Take).Fine? && Next(Next(s, Take).s, Drop) == Fine(s)
  {
    hide KI.Inv, PQ.Good;
    TopIs(s);
    var c, r := Top(s), Next(s, Take).s;
    SetTopAt(s, c.(saves := c.saves + [s.word]));
    assert Pop(c.saves + [s.word]) == c.saves;
    SetTopTwice(s, c.(saves := c.saves + [s.word]), c);
    assert SetTop(s, c) == s;
  }

  /** A handler that comes and goes leaves the interrupted contexts as they were. */
  lemma EnterThenExit(s: Sys, i: nat)
    requires Inv(s) && Can(s, Enter(i))
    ensures Next(s, Enter(i)) == Fine(Entered(s, i)) && Next(Entered(s, i), Exit) == Fine(s)
    ensures Top(Entered(s, i)) == Ctx(Some(i), [], Working)
  {
    hide KI.Inv, PQ.Good;
    assert Pop(Entered(s, i).ctx) == s.ctx;
  }

  /** Only the context on top changes. */
  lemma LowerContextsKept(s: Sys, a: Act)
    requires Inv(s) && Can(s, a) && Next(s, a).Fine?
    ensures var r, n := Next(s, a).s, |s.ctx|;
      && n > 0 && |r.ctx| == (if a.Enter? then n + 1 else if a.Exit? then n - 1 else n)
      && forall j :: 0 <= j < n - 1 ==> j < |r.ctx| && r.ctx[j] == s.ctx[j]
  {
    hide KI.Inv, PQ.Good, Step, PQ.Push, PQ.Pop, Typed, Cells;
    TopIs(s);
  }

  /** Threads may always take the word. A handler that is not busy may exactly when no context that it
      interrupted holds it, and otherwise has to defer. */
  lemma MayTakeIff(s: Sys)
    requires Inv(s) && Top(s).phase == Working && (Top(s).irq.None? ==> s.k.current !in s.due)
    ensures Can(s, Take) <==> Top(s).irq.None? || forall j :: 0 <= j < |s.ctx| - 1 ==> s.ctx[j].saves == []
    ensures forall w :: Can(s, Defer(w)) <==> !Can(s, Take)
  {
    hide KI.Inv, PQ.Good;
    TopIs(s);
    var n := |s.ctx| - 1;
    if Top(s).irq.Some? {
      if exists j :: 0 <= j < n && s.ctx[j].saves != [] {
        var j :| 0 <= j < n && s.ctx[j].saves != [];
        OnlyHolder(s, j, n);
        assert s.ctx[j].irq != s.ctx[n].irq;
      } else if s.word != Free {
        var h :| 0 <= h < |s.ctx| && s.ctx[h].saves != [];
        assert h == n;
      }
    }
  }

  // What was asked for

  /** The request that an action leaves for later. */
  function Asked(a: Act, w: PQ.Which): seq<AQ.Ref> {
    if w == PQ.Resumes && a.Defer? then [AQ.Link(a.w)]
    else if w == PQ.Sleeps && a.DeferSleep? then [AQ.Link(Irq(a.i))]
    else []
  }

  function AskedAll(acts: seq<Act>, w: PQ.Which): seq<AQ.Ref>
    decreases |acts|
  {
    if acts == [] then [] else Asked(acts[0], w) + AskedAll(acts[1..], w)
  }

  lemma AskedNext(s: Sys, a: Act, w: PQ.Which)
    requires Inv(s) && Can(s, a) && Careful(s, a) && Next(s, a).Fine?
    ensures Deferred(Next(s, a).s, w) == Deferred(s, w) + Asked(a, w)
  {
    hide KI.Inv, Step, PQ.Push, PQ.Pop, PQ.Good, PQ.Items;
    if a.Defer? || a.DeferSleep? {
      DeferShape(s, Target(a), Item(a));
      PQ.PushKeeps(s.q, Target(a), AQ.Link(Item(a)));
    } else if a.Drain? {
      DrainShape(s);
      PQ.PopTakesOldest(s.q, Source(Top(s).phase));
    }
  }

  lemma {:induction false} AskedRun(s: Sys, acts: seq<Act>, w: PQ.Which)
    requires Inv(s) && Sound(s, acts) && Run(s, acts).Fine?
    ensures Inv(Run(s, acts).s) && Deferred(Run(s, acts).s, w) == Deferred(s, w) + AskedAll(acts, w)
    decreases |acts|
  {
    hide Inv, Can, Next, Careful, Deferred, Asked;
    if acts == [] {
      assert Deferred(s, w) + [] == Deferred(s, w);
    } else {
      var r := Next(s, acts[0]).s;
      NextInv(s, acts[0]);
      AskedNext(s, acts[0], w);
      AskedRun(r, acts[1..], w);
      Regroup(Deferred(s, w), Asked(acts[0], w), AskedAll(acts[1..], w));
    }
  }

  lemma Regroup(a: seq<AQ.Ref>, b: seq<AQ.Ref>, c: seq<AQ.Ref>)
    ensures (a + b) + c == a + (b + c)
  {
  }

  /** In every sound run the requests that the handlers left, read off the actions, are those applied
      followed by those still queued. */
  lemma AskedIsDrainedOrQueued(k: State, acts: seq<Act>, w: PQ.Which)
    requires KI.Init(k) && Sound(Boot(k), acts) && Run(Boot(k), acts).Fine?
    ensures var s := Run(Boot(k), acts).s; AskedAll(acts, w) == Drained(s, w) + PQ.Items(s.q, w)
  {
    hide Run, Sound, KI.Inv, Drained;
    BootInv(k);
    AskedRun(Boot(k), acts, w);
    DeferredInOrder(k, acts, w);
  }
}
