/** The two pending queues of the scheduler. Each suspendable has one pending link for both, so the
    queues share their nodes. Operations run alone: a handler that interrupts one completes its own
    before the interrupted one goes on. */
module PendingQueues {
  import opened Wrappers
  import opened Lists
  import AQ = AtomicQueue

  datatype Which = Resumes | Sleeps

  datatype Ends = Ends(head: AQ.Ref, tail: AQ.Ref, chain: seq<AQ.Ref>, pushed: seq<AQ.Ref>, popped: seq<AQ.Ref>)

  datatype Pending = Pending(next: map<AQ.Ref, AQ.Ref>, owned: set<AQ.Ref>, resumes: Ends, sleeps: Ends)

  function EndsOf(p: Pending, w: Which): Ends { if w == Resumes then p.resumes else p.sleeps }

  function Other(w: Which): Which { if w == Resumes then Sleeps else Resumes }

  /** One of the queues as the lock-free queue sees it. */
  function View(p: Pending, w: Which): AQ.Mem {
    var e := EndsOf(p, w);
    AQ.Mem(p.next, p.owned, e.head, e.tail, e.chain, e.pushed, e.popped, AQ.NoFault)
  }

  function Put(p: Pending, w: Which, m: AQ.Mem): Pending {
    var e := Ends(m.head, m.tail, m.chain, m.pushed, m.popped);
    if w == Resumes then Pending(m.next, m.owned, e, p.sleeps) else Pending(m.next, m.owned, p.resumes, e)
  }

  datatype Outcome = Done(p: Pending, item: Option<AQ.Ref>) | Refused | Missing | Unfinished

  /** The operation of module `AtomicQueue`, run alone on one of the queues. */
  function Run(p: Pending, w: Which, a: AQ.Action): AQ.State {
    AQ.Whole(AQ.State(View(p, w), map[]), a)
  }

  function Push(p: Pending, w: Which, n: AQ.Ref): Outcome {
    var r := Run(p, w, AQ.Push(0, n));
    if r.m.fault == AQ.ItemAlreadyInQueue then Refused
    else if AQ.At(r, 0) != AQ.Idle then Unfinished
    else Done(Put(p, w, r.m), None)
  }

  function Pop(p: Pending, w: Which): Outcome {
    var r, k := Run(p, w, AQ.Pop(0)), |EndsOf(p, w).popped|;
    if r.m.fault == AQ.ItemNotInQueue then Missing
    else if AQ.At(r, 0) != AQ.Idle then Unfinished
    else Done(Put(p, w, r.m), if |r.m.popped| > k then Some(r.m.popped[k]) else None)
  }

  ghost function Items(p: Pending, w: Which): seq<AQ.Ref> { AQ.Queue(View(p, w)) }

  function Dummy(p: Pending, w: Which): AQ.Ref { EndsOf(p, w).head }

  /** A well-formed queue at rest: the tail is the last node. */
  ghost predicate AtRest(m: AQ.Mem) { AQ.MemOk(m) && m.tail == m.chain[|m.chain| - 1] }

  /** Both queues are well formed, share no node, and own exactly what is queued. */
  ghost predicate Good(p: Pending) {
    && AtRest(View(p, Resumes)) && AtRest(View(p, Sleeps))
    && Elems(p.resumes.chain) !! Elems(p.sleeps.chain)
    && p.owned == Elems(Items(p, Resumes)) + Elems(Items(p, Sleeps))
  }

  function Empty(): Pending {
    var r, s := AQ.Sentinel(0), AQ.Sentinel(1);
    Pending(map[], {}, Ends(r, r, [r], [], []), Ends(s, s, [s], [], []))
  }

  lemma EmptyGood()
    ensures Good(Empty()) && Items(Empty(), Resumes) == [] && Items(Empty(), Sleeps) == []
  {
  }

  lemma GoodAt(p: Pending, w: Which)
    requires Good(p)
    ensures AtRest(View(p, w)) && AtRest(View(p, Other(w)))
    ensures Elems(EndsOf(p, w).chain) !! Elems(EndsOf(p, Other(w)).chain)
    ensures p.owned == Elems(Items(p, w)) + Elems(Items(p, Other(w)))
    ensures Elems(EndsOf(p, w).chain) == {Dummy(p, w)} + Elems(Items(p, w)) && Dummy(p, w) !in Elems(Items(p, w))
  {
    AQ.HeadSplit(View(p, w));
  }

  lemma GoodBy(p: Pending, w: Which)
    requires AtRest(View(p, w)) && AtRest(View(p, Other(w)))
    requires Elems(EndsOf(p, w).chain) !! Elems(EndsOf(p, Other(w)).chain)
    requires p.owned == Elems(Items(p, w)) + Elems(Items(p, Other(w)))
    ensures Good(p)
  {
  }

  /** A node is refused exactly when it waits in either queue. */
  lemma RefusedIff(p: Pending, w: Which, n: AQ.Ref)
    requires Good(p)
    ensures Push(p, w, n) == Refused <==> n in Elems(Items(p, Resumes)) + Elems(Items(p, Sleeps))
  {
    hide AQ.Alone, AQ.Go, Good, AtRest;
    GoodAt(p, w);
    if n in p.owned {
      AQ.IdleAlone(AQ.Do(AQ.State(View(p, w), map[]), AQ.Push(0, n)), 0, 6);
    } else {
      PushDone(p, w, n);
    }
  }

  // Pushing

  lemma LastIsNull(m: AQ.Mem)
    requires AtRest(m)
    ensures m.tail !in m.next && m.tail in Elems(m.chain)
  {
    var n := |m.chain| - 1;
    assert AQ.Load(m.next, m.chain[n]) == AQ.After(m.chain, n);
    AtElems(m.chain, n);
  }

  lemma PushDone(p: Pending, w: Which, n: AQ.Ref)
    requires AtRest(View(p, w)) && n !in p.owned
    ensures Push(p, w, n) == Done(Put(p, w, AQ.PushedAlone(View(p, w), n)), None)
  {
    hide AQ.Alone, AQ.Go;
    LastIsNull(View(p, w));
    AQ.PushAlone(AQ.State(View(p, w), map[]), 0, n);
  }

  /** The queue that is pushed to. */
  lemma PushedAtRest(m: AQ.Mem, n: AQ.Ref)
    requires AtRest(m) && n !in Elems(m.chain)
    ensures AtRest(AQ.PushedAlone(m, n)) && AQ.Queue(AQ.PushedAlone(m, n)) == AQ.Queue(m) + [n]
    ensures Elems(AQ.PushedAlone(m, n).chain) == Elems(m.chain) + {n}
    ensures Elems(AQ.Queue(AQ.PushedAlone(m, n))) == Elems(AQ.Queue(m)) + {n}
  {
    hide Elems, NoDup, AQ.Chained;
    LastIsNull(m);
    AQ.ResetMem(m, n);
    var m1 := m.(owned := m.owned + {n}, next := m.next - {n});
    assert AQ.MemOk(m1);
    AQ.LinkMem(m1, m.tail, n);
    AQ.LinkElems(m1, m.tail, n);
  }

  lemma ChainedFrame(next: map<AQ.Ref, AQ.Ref>, next': map<AQ.Ref, AQ.Ref>, q: seq<AQ.Ref>)
    requires AQ.Chained(next, q) && forall x :: x in Elems(q) ==> AQ.Load(next', x) == AQ.Load(next, x)
    ensures AQ.Chained(next', q)
  {
    forall i | 0 <= i < |q| ensures AQ.Load(next', q[i]) == AQ.After(q, i) { AtElems(q, i); }
  }

  /** The queue beside it. */
  lemma BesideAtRest(m: AQ.Mem, next': map<AQ.Ref, AQ.Ref>, owned': set<AQ.Ref>)
    requires AtRest(m) && Elems(AQ.Queue(m)) <= owned'
    requires forall x :: x in Elems(m.chain) ==> AQ.Load(next', x) == AQ.Load(m.next, x)
    ensures AtRest(m.(next := next', owned := owned'))
  {
    hide Elems, NoDup, AQ.Chained, AQ.Load;
    ChainedFrame(m.next, next', m.chain);
  }

  lemma PushKeeps(p: Pending, w: Which, n: AQ.Ref)
    requires Good(p) && n !in p.owned && n != Dummy(p, Resumes) && n != Dummy(p, Sleeps)
    ensures Push(p, w, n).Done? && Good(Push(p, w, n).p)
    ensures Items(Push(p, w, n).p, w) == Items(p, w) + [n] && EndsOf(Push(p, w, n).p, Other(w)) == EndsOf(p, Other(w))
    ensures EndsOf(Push(p, w, n).p, w).pushed == EndsOf(p, w).pushed + [n]
      && EndsOf(Push(p, w, n).p, w).popped == EndsOf(p, w).popped
  {
    hide Elems, NoDup, AQ.MemOk, Good, Push;
    GoodAt(p, w);
    GoodAt(p, Other(w));
    var m, o := View(p, w), View(p, Other(w));
    PushDone(p, w, n);
    LastIsNull(m);
    PushedAtRest(m, n);
    var r := Push(p, w, n).p;
    BesideAtRest(o, r.next, r.owned);
    assert View(r, w) == AQ.PushedAlone(m, n) && View(r, Other(w)) == o.(next := r.next, owned := r.owned);
    GoodBy(r, w);
  }

  /** A push keeps both queues exactly when the node is the dummy of neither. */
  lemma PushKeepsIff(p: Pending, w: Which, n: AQ.Ref)
    requires Good(p) && n !in p.owned
    ensures Push(p, w, n).Done?
    ensures Good(Push(p, w, n).p) <==> n != Dummy(p, Resumes) && n != Dummy(p, Sleeps)
  {
    hide NoDup, Push;
    GoodAt(p, w);
    GoodAt(p, Other(w));
    PushDone(p, w, n);
    var r, c := Push(p, w, n).p, EndsOf(p, w).chain;
    if n != Dummy(p, Resumes) && n != Dummy(p, Sleeps) {
      PushKeeps(p, w, n);
    } else {
      ElemsConcat(c, [n]);
      ElemsOne(n);
      AtElems(c, 0);
      AtElems(EndsOf(p, Other(w)).chain, 0);
      assert EndsOf(r, w).chain == c + [n];
    }
  }

  // Popping

  lemma PopDone(p: Pending, w: Which)
    requires Good(p)
    ensures Items(p, w) == [] ==> Pop(p, w) == Done(p, None)
    ensures Items(p, w) != [] ==>
      var y := Items(p, w)[0];
      && Pop(p, w) == Done(Put(p, w, AQ.PoppedAlone(View(p, w), y)), Some(y))
      && y in p.owned && AQ.Follows(View(p, w), Dummy(p, w), y) && View(p, w).tail != Dummy(p, w)
  {
    hide AQ.Alone, AQ.Go;
    GoodAt(p, w);
    var m := View(p, w);
    AQ.HeadNext(m);
    var s := AQ.State(m, map[]);
    if Items(p, w) == [] {
      AQ.PopAloneEmpty(s, 0);
    } else {
      NoDupAt(m.chain, 0, |m.chain| - 1);
      AtElems(Items(p, w), 0);
      AQ.PopAlone(s, 0, Items(p, w)[0]);
    }
  }

  lemma PoppedAtRest(m: AQ.Mem, y: AQ.Ref)
    requires AtRest(m) && AQ.Follows(m, m.head, y) && m.tail != m.head
    ensures y in m.owned && AtRest(AQ.PoppedAlone(m, y)) && AQ.Queue(m) == [y] + AQ.Queue(AQ.PoppedAlone(m, y))
    ensures Elems(AQ.PoppedAlone(m, y).chain) <= Elems(m.chain)
    ensures Elems(AQ.Queue(AQ.PoppedAlone(m, y))) == Elems(AQ.Queue(m)) - {y}
  {
    hide Elems, NoDup, AQ.Chained;
    AQ.UnlinkMem(m, y);
    var q := AQ.Queue(AQ.Unlinked(m, y));
    ElemsConcat([y], q);
    ElemsOne(y);
  }

  lemma ElemsOne(y: AQ.Ref)
    ensures Elems([y]) == {y}
  {
  }

  /** A pop takes the oldest item of its queue, or nothing when it is empty, and keeps both. */
  lemma PopTakesOldest(p: Pending, w: Which)
    requires Good(p)
    ensures Pop(p, w).Done? && Good(Pop(p, w).p) && EndsOf(Pop(p, w).p, Other(w)) == EndsOf(p, Other(w))
    ensures if Items(p, w) == [] then Pop(p, w) == Done(p, None)
            else Pop(p, w).item == Some(Items(p, w)[0]) && Items(Pop(p, w).p, w) == Items(p, w)[1..]
                 && Dummy(Pop(p, w).p, w) == Items(p, w)[0]
    ensures EndsOf(Pop(p, w).p, w).pushed == EndsOf(p, w).pushed
    ensures EndsOf(Pop(p, w).p, w).popped == EndsOf(p, w).popped + if Items(p, w) == [] then [] else [Items(p, w)[0]]
  {
    hide Elems, NoDup, AQ.MemOk, Good, Pop;
    GoodAt(p, w);
    GoodAt(p, Other(w));
    PopDone(p, w);
    if Items(p, w) != [] {
      var m, o, y := View(p, w), View(p, Other(w)), Items(p, w)[0];
      AtElems(Items(p, w), 0);
      PoppedAtRest(m, y);
      var r := Pop(p, w).p;
      BesideAtRest(o, r.next, r.owned);
      assert View(r, w) == AQ.PoppedAlone(m, y) && View(r, Other(w)) == o.(next := r.next, owned := r.owned);
      GoodBy(r, w);
    }
  }

  // What goes wrong with a dummy

  lemma DummyNotOwned(p: Pending, w: Which)
    requires Good(p)
    ensures Dummy(p, w) !in p.owned
  {
    GoodAt(p, w);
    GoodAt(p, Other(w));
  }

  /** The dummy pushed again on its own queue: if the queue was empty the next pop does not finish,
      however long it runs; otherwise it answers that the queue is empty and the items are lost. */
  lemma RepushedDummy(p: Pending, w: Which, k: nat)
    requires Good(p)
    ensures var q := Push(p, w, Dummy(p, w));
      && q.Done?
      && (if Items(p, w) == [] then Pop(q.p, w) == Unfinished
          && AQ.At(AQ.Alone(AQ.Do(AQ.State(View(q.p, w), map[]), AQ.Pop(0)), 0, 5 * k), 0) == AQ.PopHead
          else Pop(q.p, w) == Done(q.p, None))
  {
    hide AQ.Alone, AQ.Go, Good;
    GoodAt(p, w);
    DummyNotOwned(p, w);
    var d, m := Dummy(p, w), View(p, w);
    PushDone(p, w, d);
    var q := Push(p, w, d).p;
    var s := AQ.State(m, map[]);
    AQ.PushedDummyBreaksChain(s, 0);
    LastIsNull(m);
    AQ.PushAlone(s, 0, d);
    var v := View(q, w);
    assert v == AQ.PushedAlone(m, d);
    var t := AQ.State(v, map[]);
    if Items(p, w) == [] {
      var t1 := AQ.Do(t, AQ.Pop(0));
      AQ.SelfLinkHangs(t1, 0, k);
      AQ.SelfLinkSpins(t1, 0);
      AQ.AloneSplit(t1, 0, 5, 1);
      OneMore(t1);
    } else {
      AQ.PopAloneEmpty(t, 0);
    }
  }

  lemma OneMore(t: AQ.State)
    requires AQ.At(t, 0) == AQ.PopHead
    ensures AQ.At(AQ.Alone(t, 0, 1), 0).PopTail? && AQ.Alone(t, 0, 1).m == t.m
  {
    assert AQ.Alone(t, 0, 1) == AQ.Go(t, 0);
  }

  /** The dummy of one queue pushed on the other: the next item of the first is chained into the second. */
  lemma CrossedQueues(p: Pending, w: Which, x: AQ.Ref)
    requires Good(p) && Items(p, Other(w)) == [] && x !in p.owned + {Dummy(p, Resumes), Dummy(p, Sleeps)}
    ensures var q := Push(p, w, Dummy(p, Other(w)));
      && q.Done? && Push(q.p, Other(w), x).Done?
      && var r := Push(q.p, Other(w), x).p;
      EndsOf(r, w).tail == Dummy(p, Other(w)) && AQ.Load(r.next, EndsOf(r, w).tail) == Some(x)
  {
    hide AQ.Alone, AQ.Go, Good;
    GoodAt(p, w);
    GoodAt(p, Other(w));
    DummyNotOwned(p, Other(w));
    var d := Dummy(p, Other(w));
    PushDone(p, w, d);
    LastIsNull(View(p, w));
    LastIsNull(View(p, Other(w)));
    var q := Push(p, w, d).p;
    AQ.PushAlone(AQ.State(View(q, Other(w)), map[]), 0, x);
  }
}
