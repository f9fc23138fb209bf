/** The lock-free queue makes progress: from any state of any interleaving, a context that runs on alone
    finishes its operation within 14 steps, and it does what it set out to do. An interrupt handler runs
    alone in this sense, whatever the operations are that it interrupted. */
module QueueProgress {
  import opened Wrappers
  import opened Lists
  import opened AtomicQueue

  predicate Lags(m: Mem) { m.chain != [] && m.tail != m.chain[|m.chain| - 1] }

  /** Steps of a push from its loop head: five, and four more if the tail has to be helped on first. */
  function PushSteps(m: Mem): nat { if Lags(m) then 9 else 5 }

  /** Steps of a pop from its loop head. */
  function PopSteps(m: Mem): nat { if m.tail != m.head then 6 else if |m.chain| == 1 then 4 else 11 }

  /** A bound on the steps that a context at `c` has left if it runs on alone. */
  function Left(m: Mem, c: Pc): nat {
    match c
    case Idle => 0
    case PushReset(_) => 1 + PushSteps(m)
    case PushTail(_) => PushSteps(m)
    case PushNext(_, t) => if t == m.tail then PushSteps(m) - 1 else 2 + PushSteps(m)
    case PushCheck(n, t, x) =>
      if t != m.tail then 1 + PushSteps(m)
      else if x.None? then (if t in m.next then 2 + PushSteps(m) else 3)
      else 7
    case PushLink(_, t) => if t in m.next then 1 + PushSteps(m) else 2
    case PushHelp(_, t, _) => if t == m.tail then 6 else 1 + PushSteps(m)
    case PushSwing(_, _) => 1
    case PopHead => PopSteps(m)
    case PopTail(h) => if h == m.head then PopSteps(m) - 1 else 3 + PopSteps(m)
    case PopNext(h, t) =>
      if h != m.head then 2 + PopSteps(m) else if t == m.tail then PopSteps(m) - 2 else 3 + PopSteps(m)
    case PopCheck(h, t, x, _) =>
      if h != m.head then 1 + PopSteps(m)
      else if h == t then (if x.None? then 1 else if m.tail == h then 8 else 2 + PopSteps(m))
      else if x.None? then 1 + PopSteps(m) else 3
    case PopHelp(h, _) => if h == m.tail then 7 else 1 + PopSteps(m)
    case PopSwing(h, _) => if h == m.head then 2 else 1 + PopSteps(m)
    case PopDisown(_) => 1
    case LookHead => 2
    case LookNext(_) => 1
  }

  /** The tail has a successor exactly when it lags. */
  lemma TailNext(m: Mem)
    requires MemOk(m)
    ensures m.tail in m.next <==> Lags(m)
    ensures m.head in m.next <==> |m.chain| > 1
    ensures m.tail == m.head && |m.chain| > 1 ==> Lags(m)
    ensures m.tail != m.head ==> |m.chain| > 1
  {
    var n := |m.chain|;
    assert Load(m.next, m.chain[n - 1]) == After(m.chain, n - 1);
    assert n > 1 ==> Load(m.next, m.chain[n - 2]) == After(m.chain, n - 2);
    assert Load(m.next, m.chain[0]) == After(m.chain, 0);
    if n > 1 {
      NoDupAt(m.chain, 0, n - 1);
      NoDupAt(m.chain, n - 2, n - 1);
    }
  }

  /** Helping does help: the tail reaches the last node. */
  lemma Helped(m: Mem, t: Ref, y: Ref)
    requires MemOk(m) && Follows(m, t, y) && m.tail == t
    ensures !Lags(CasTail(m, t, y)) && y != m.head
  {
    hide Elems, NoDup, Chained;
    SwingTailMem(m, t, y);
    NoDupAt(m.chain, 0, |m.chain| - 1);
  }

  lemma PushLess(s: State, p: Pid)
    requires Inv(s) && Pushing(At(s, p)).Some?
    ensures Left(Go(s, p).m, At(Go(s, p), p)) < Left(s.m, At(s, p))
  {
    hide Elems, NoDup, Chained;
    var m, c := s.m, At(s, p);
    assert PcOk(m, c);
    TailNext(m);
    if c.PushHelp? && c.t == m.tail { Helped(m, c.t, c.y); }
  }

  lemma PopLess(s: State, p: Pid)
    requires Inv(s) && Pushing(At(s, p)).None? && !At(s, p).Idle?
    ensures Left(Go(s, p).m, At(Go(s, p), p)) < Left(s.m, At(s, p))
  {
    hide Elems, NoDup, Chained;
    var m, c := s.m, At(s, p);
    assert PcOk(m, c);
    TailNext(m);
    TailIn(m);
    HeadSplit(m);
    if c.PopHelp? && c.h == m.tail { Helped(m, c.h, c.y); }
  }

  /** Every step of a context that is not idle brings it closer to the end of its operation. */
  lemma GoLess(s: State, p: Pid)
    requires Inv(s) && !At(s, p).Idle?
    ensures Left(Go(s, p).m, At(Go(s, p), p)) < Left(s.m, At(s, p)) <= 14
  {
    hide Inv, Go;
    if Pushing(At(s, p)).Some? { PushLess(s, p); } else { PopLess(s, p); }
  }

  lemma {:induction false} Finishes(s: State, p: Pid, k: nat)
    requires Inv(s) && Left(s.m, At(s, p)) <= k
    ensures Inv(Alone(s, p, k)) && At(Alone(s, p, k), p).Idle?
    decreases k
  {
    hide Inv, Go;
    if At(s, p).Idle? {
      IdleAlone(s, p, k);
    } else {
      GoLess(s, p);
      GoInv(s, p);
      Finishes(Go(s, p), p, k - 1);
    }
  }

  /** In any state of any interleaving, a context that runs alone is idle after 14 steps. */
  lemma FinishesAlone(s: State, p: Pid)
    requires Inv(s)
    ensures Inv(Alone(s, p, 14)) && At(Alone(s, p, 14), p).Idle?
  {
    hide Inv, Go, Alone;
    if !At(s, p).Idle? { GoLess(s, p); }
    Finishes(s, p, 14);
  }

  // What the operation has done when it is finished

  /** A push goes on pushing its item until the step that appends it, and changes the queue only then. */
  lemma PushStep(s: State, p: Pid)
    requires Inv(s) && Pushing(At(s, p)).Some?
    ensures var n, r := Pushing(At(s, p)).value, Go(s, p);
      || (Pushing(At(r, p)) == Some(n) && Queue(r.m) == Queue(s.m))
      || (At(r, p).PushSwing? && At(r, p).n == n && Queue(r.m) == Queue(s.m) + [n])
  {
    var c := At(s, p);
    if c.PushLink? && c.t !in s.m.next { LinkInv(s, p); }
    hide Inv, Elems;
  }

  lemma {:induction false} PushFinishes(s: State, p: Pid, k: nat)
    requires Inv(s) && Pushing(At(s, p)).Some? && Left(s.m, At(s, p)) <= k
    ensures Queue(Alone(s, p, k).m) == Queue(s.m) + [Pushing(At(s, p)).value]
    decreases k
  {
    hide Inv, Queue;
    var r := Go(s, p);
    PushStep(s, p);
    GoLess(s, p);
    GoInv(s, p);
    if Pushing(At(r, p)).Some? {
      hide Go;
      PushFinishes(r, p, k - 1);
    } else {
      SwingKeeps(r, p);
      IdleAlone(Go(r, p), p, k - 2);
    }
  }

  lemma SwingKeeps(s: State, p: Pid)
    requires At(s, p).PushSwing?
    ensures At(Go(s, p), p).Idle? && Queue(Go(s, p).m) == Queue(s.m)
  {
  }

  /** Whatever it interrupted, a push that runs alone appends its item and returns. */
  lemma PushAppendsAlone(s: State, p: Pid)
    requires Inv(s) && Pushing(At(s, p)).Some?
    ensures var r := Alone(s, p, 14);
      At(r, p).Idle? && Inv(r) && Queue(r.m) == Queue(s.m) + [Pushing(At(s, p)).value]
  {
    hide Inv, Go, Alone, Queue;
    FinishesAlone(s, p);
    GoLess(s, p);
    PushFinishes(s, p, 14);
  }

  /** A pop whose locals are up to date. */
  predicate Current(m: Mem, c: Pc) {
    match c
    case PopHead => true
    case PopTail(h) => h == m.head
    case PopNext(h, t) => h == m.head && t == m.tail
    case PopCheck(h, t, x, _) => h == m.head && t == m.tail && x == Load(m.next, h)
    case PopHelp(h, y) => h == m.head && h == m.tail && Load(m.next, h) == Some(y)
    case PopSwing(h, y) => h == m.head && h != m.tail && Load(m.next, h) == Some(y)
    case _ => false
  }

  /** Such a pop stays up to date until it takes the oldest item or finds the queue empty. */
  lemma PopStep(s: State, p: Pid)
    requires Inv(s) && Current(s.m, At(s, p))
    ensures var r := Go(s, p);
      || (Current(r.m, At(r, p)) && Queue(r.m) == Queue(s.m) && r.m.popped == s.m.popped)
      || (At(r, p).Idle? && r.m == s.m && Queue(s.m) == [])
      || (At(r, p).PopDisown? && Queue(s.m) == [At(r, p).y] + Queue(r.m) && r.m.popped == s.m.popped + [At(r, p).y])
  {
    var m, c := s.m, At(s, p);
    TailNext(m);
    if c.PopSwing? { UnlinkInv(s, p); }
    if c.PopHelp? { Helped(m, c.h, c.y); }
    assert |m.chain| > 0;
    hide Inv;
  }

  /** What a pop leaves of the queue: nothing changed when it was empty, else the oldest item is gone, was
      returned, and may be pushed again. */
  ghost predicate Took(s: State, r: State) {
    if Queue(s.m) == [] then Queue(r.m) == [] && r.m.popped == s.m.popped
    else Queue(r.m) == Queue(s.m)[1..] && r.m.popped == s.m.popped + [Queue(s.m)[0]] && Queue(s.m)[0] !in r.m.owned
  }

  lemma {:induction false} PopFinishes(s: State, p: Pid, k: nat)
    requires Inv(s) && Current(s.m, At(s, p)) && Left(s.m, At(s, p)) <= k
    ensures Took(s, Alone(s, p, k))
    decreases k
  {
    hide Inv, Queue;
    var r := Go(s, p);
    PopStep(s, p);
    GoLess(s, p);
    GoInv(s, p);
    hide Left;
    if Current(r.m, At(r, p)) {
      hide Go;
      PopFinishes(r, p, k - 1);
    } else if At(r, p).Idle? {
      IdleAlone(r, p, k - 1);
    } else {
      GoLess(r, p);
      DisownKeeps(r, p);
      hide Go;
      IdleAlone(Go(r, p), p, k - 2);
    }
  }

  lemma DisownKeeps(s: State, p: Pid)
    requires Inv(s) && At(s, p).PopDisown?
    ensures At(Go(s, p), p).Idle? && Queue(Go(s, p).m) == Queue(s.m) && Go(s, p).m.popped == s.m.popped
    ensures At(s, p).y !in Go(s, p).m.owned
  {
    DisownInv(s, p);
    hide Inv;
  }

  /** Whatever it interrupted, a pop that runs alone takes the oldest item and returns it, or returns nothing
      when the queue is empty. */
  lemma PopTakesAlone(s: State, p: Pid)
    requires Inv(s) && At(s, p).Idle?
    ensures var s1 := Do(s, Pop(p)); var r := Alone(s1, p, 14);
      At(r, p).Idle? && Inv(r) && Took(s, r)
  {
    var s1 := Do(s, Pop(p));
    DoInv(s, Pop(p));
    hide Inv, Go, Alone, Queue;
    FinishesAlone(s1, p);
    GoLess(s1, p);
    PopFinishes(s1, p, 14);
  }
}
